/** What every reachable event stream and approval queue looks like. */
module RoomStream {
  import opened Wrappers
  import opened Policy
  import opened Events
  import opened RoomData
  import opened RoomSpec
  import opened RoomEffects
  import Lifecycle = RoomLifecycle

  // ---------------------------------------------------------------------------------------------
  // The invariant
  // ---------------------------------------------------------------------------------------------

  /** Sequence numbers count up from 1; ids grow and stay below the counter. */
  predicate Numbered(events: seq<Event>, nextId: Id) {
    && (forall i :: 0 <= i < |events| ==> events[i].sequence == i + 1 && events[i].id < nextId)
    && (forall i, j :: 0 <= i < j < |events| ==> events[i].id < events[j].id)
  }

  /** An agent's event has a sender, a clean body, clean labels, and answers a request among the events before it. */
  predicate EventOk(env: Env, cs: seq<ContractVersion>, before: seq<Event>, e: Event) {
    && (e.sender.Some? <==> e.content.FromAgent?)
    && (e.content.FromAgent? ==>
          cs != [] && CleanBody(env, cs, e.content.body) && CleanLabels(cs, e.classification.categories)
          && Linked(before, e.sender.value, e.content.body))
  }

  predicate EventsOk(env: Env, cs: seq<ContractVersion>, events: seq<Event>) {
    forall i :: 0 <= i < |events| ==> EventOk(env, cs, events[..i], events[i])
  }

  predicate IsParticipant(ps: seq<Participant>, id: Id) { exists p :: p in ps && p.id == id }

  /** A held body is clean, still hashes to what was stored with it, and comes from a participant. */
  predicate ApprovalOk(env: Env, db: Db, a: Approval) {
    && db.contracts != [] && CleanBody(env, db.contracts, a.body) && a.parametersHash == env.hash(a.body)
    && IsParticipant(db.participants, a.requestedBy) && Linked(db.events, a.requestedBy, a.body)
  }

  predicate ApprovalsOk(env: Env, db: Db) { forall id :: id in db.approvals ==> ApprovalOk(env, db, db.approvals[id]) }

  /** While the contract can still change, no agent has spoken and nothing is held. */
  predicate SilentInSetup(db: Db) {
    Negotiable(db.room.state) ==> db.approvals == map[] && forall e :: e in db.events ==> e.content.FromPlatform?
  }

  predicate Inv(env: Env, db: Db) {
    && Numbered(db.events, db.nextId) && EventsOk(env, db.contracts, db.events) && ApprovalsOk(env, db) && SilentInSetup(db)
  }

  // ---------------------------------------------------------------------------------------------
  // Small steps
  // ---------------------------------------------------------------------------------------------

  /** Everything but statuses, participants' details and the room's state stays. */
  predicate Framed(db: Db, db': Db) {
    && db'.events == db.events && db'.contracts == db.contracts && db.nextId <= db'.nextId
    && (Negotiable(db'.room.state) ==> Negotiable(db.room.state))
    && (forall p :: p in db.participants ==> IsParticipant(db'.participants, p.id))
    && db'.approvals.Keys == db.approvals.Keys
    && (forall id :: id in db.approvals ==> SameRequest(db.approvals[id], db'.approvals[id]))
  }

  lemma FramedKeeps(env: Env, db: Db, db': Db)
    requires Inv(env, db) && Framed(db, db')
    ensures Inv(env, db')
  {
    forall id | id in db'.approvals ensures ApprovalOk(env, db', db'.approvals[id]) {
      assert ApprovalOk(env, db, db.approvals[id]);
    }
  }

  lemma LinkedLater(events: seq<Event>, more: seq<Event>, sender: Id, body: Body)
    requires Linked(events, sender, body)
    ensures Linked(events + more, sender, body)
  {
    if body.DataResponse? {
      var e :| e in events && Answers(e, sender, body);
      assert e in events + more;
    }
  }

  lemma ApprovalsLater(env: Env, db: Db, e: Event)
    requires ApprovalsOk(env, db)
    ensures ApprovalsOk(env, db.(events := db.events + [e]))
  {
    forall id | id in db.approvals ensures ApprovalOk(env, db.(events := db.events + [e]), db.approvals[id]) {
      assert ApprovalOk(env, db, db.approvals[id]);
      LinkedLater(db.events, [e], db.approvals[id].requestedBy, db.approvals[id].body);
    }
  }

  lemma EventsLater(env: Env, cs: seq<ContractVersion>, events: seq<Event>, e: Event)
    requires EventsOk(env, cs, events) && EventOk(env, cs, events, e)
    ensures EventsOk(env, cs, events + [e])
  {
    var all := events + [e];
    forall i | 0 <= i < |all| ensures EventOk(env, cs, all[..i], all[i]) {
      if i < |events| {
        assert all[..i] == events[..i];
        assert EventOk(env, cs, events[..i], events[i]);
      } else {
        assert all[..i] == events;
      }
    }
  }

  lemma AppendKeeps(env: Env, db: Db, sender: Option<Id>, recipient: Option<Id>, content: Content, labels: Classification)
    requires Inv(env, db)
    requires EventOk(env, db.contracts, db.events, Event(db.nextId, |db.events| + 1, sender, recipient, content, labels))
    requires content.FromAgent? ==> !Negotiable(db.room.state)
    ensures Inv(env, Appended(db, sender, recipient, content, labels))
  {
    var e := Event(db.nextId, |db.events| + 1, sender, recipient, content, labels);
    EventsLater(env, db.contracts, db.events, e);
    ApprovalsLater(env, db, e);
    var db' := Appended(db, sender, recipient, content, labels);
    forall id | id in db'.approvals ensures ApprovalOk(env, db', db'.approvals[id]) {
      assert ApprovalOk(env, db.(events := db.events + [e]), db.approvals[id]);
    }
  }

  lemma NoteKeeps(env: Env, db: Db, notice: Notice)
    requires Inv(env, db)
    ensures Inv(env, Noted(db, notice))
  {
    AppendKeeps(env, db, None, None, FromPlatform(notice), PLATFORM_LABEL);
  }

  /** What has to be known of an event before it is released. */
  predicate Releasable(env: Env, db: Db, sender: Id, body: Body, labels: Classification) {
    && !Negotiable(db.room.state) && db.contracts != [] && CleanBody(env, db.contracts, body)
    && CleanLabels(db.contracts, labels.categories) && Linked(db.events, sender, body)
  }

  lemma ReleaseKeeps(env: Env, db: Db, sender: Id, body: Body, labels: Classification)
    requires Inv(env, db) && Releasable(env, db, sender, body, labels)
    ensures Inv(env, Released(db, sender, body, labels))
  {
    AppendKeeps(env, db, Some(sender), Peer(db.participants, sender), FromAgent(body), labels);
  }

  lemma HoldKeeps(env: Env, db: Db, sender: Participant, body: Body, now: int)
    requires Inv(env, db) && sender in db.participants && Vetted(env, db, sender.id, body)
    ensures Inv(env, Hold(env, db, sender, body, now))
  {
    var a := Approval(sender.id, body, env.hash(body), Pending, None, None, sender.org, now + DAY_MS, None);
    var db' := db.(approvals := db.approvals[db.nextId := a], nextId := db.nextId + 1);
    forall id | id in db'.approvals ensures ApprovalOk(env, db', db'.approvals[id]) {
      if id != db.nextId { assert ApprovalOk(env, db, db.approvals[id]); }
    }
    assert Inv(env, db');
    NoteKeeps(env, db', ApprovalRequested(db.nextId, sender.id, TypeOf(body), ActionOf(body)));
  }

  lemma SideEffectsKeep(env: Env, db: Db, sender: Id, body: Body)
    requires Inv(env, db)
    ensures Inv(env, SideEffects(db, sender, body))
  {
    if body.CompletionProposal? && !Satisfied(db) {
      NoteKeeps(env, db, CompletionRejected);
    } else {
      FramedKeeps(env, db, SideEffects(db, sender, body));
    }
  }

  lemma BlockKeeps(env: Env, db: Db, sender: Id, body: Body, rule: Rule, secret: bool)
    requires Inv(env, db)
    ensures Inv(env, Block(db, sender, body, rule, secret))
  {
    var noted := Noted(db, PolicyBlock(TypeOf(body), sender, rule));
    NoteKeeps(env, db, PolicyBlock(TypeOf(body), sender, rule));
    FramedKeeps(env, noted, Block(db, sender, body, rule, secret));
  }

  lemma AuthorizeKeeps(env: Env, db: Db, id: Id, user: UserId, now: int)
    requires Inv(env, db) && id in db.approvals
    ensures Inv(env, Authorize(env, db, id, user, now))
  {
    var a := db.approvals[id];
    var decided := Decided(db, id, Approved, user, now);
    var labels := env.scan(a.body, None).classification;
    var released := Released(decided, a.requestedBy, a.body, labels);
    FramedKeeps(env, db, decided);
    assert ApprovalOk(env, db, a);
    ReleaseKeeps(env, decided, a.requestedBy, a.body, labels);
    NoteKeeps(env, released, ActionAuthorized(id, ActionOf(a.body), db.nextId));
    SideEffectsKeep(env, Noted(released, ActionAuthorized(id, ActionOf(a.body), db.nextId)), a.requestedBy, a.body);
  }

  lemma EffectKeeps(env: Env, db: Db, e: Effect)
    requires Inv(env, db) && EffectOk(env, db, e)
    ensures Inv(env, Apply(env, db, e))
  {
    match e
    case Nothing =>
    case Blocking(sender, body, rule, secret) => BlockKeeps(env, db, sender, body, rule, secret);
    case Holding(holder, body, now) => HoldKeeps(env, db, holder, body, now);
    case Releasing(sender, body, labels) =>
      ReleaseKeeps(env, db, sender, body, labels);
      SideEffectsKeep(env, Released(db, sender, body, labels), sender, body);
    case Settling(id, status) => FramedKeeps(env, db, Apply(env, db, e));
    case Rejecting(id, user, now) =>
      FramedKeeps(env, db, Decided(db, id, Rejected, user, now));
      NoteKeeps(env, Decided(db, id, Rejected, user, now), ActionRejected(id, ActionOf(db.approvals[id].body)));
    case Authorizing(id, user, now) => AuthorizeKeeps(env, db, id, user, now);
  }

  // ---------------------------------------------------------------------------------------------
  // Service calls
  // ---------------------------------------------------------------------------------------------

  lemma SameParticipants(ps: seq<Participant>, ps': seq<Participant>)
    requires |ps| <= |ps'| && forall i :: 0 <= i < |ps| ==> ps'[i].id == ps[i].id
    ensures forall p :: p in ps ==> IsParticipant(ps', p.id)
  {
    forall p | p in ps ensures IsParticipant(ps', p.id) {
      var i :| 0 <= i < |ps| && ps[i] == p;
      assert ps'[i] in ps';
    }
  }

  lemma NothingIsFramed(db: Db)
    ensures Framed(db, db)
  {
    SameParticipants(db.participants, db.participants);
  }

  /** Storing the room, unless it went back to negotiating. */
  lemma RoomIsFramed(db: Db, db1: Db, room: Room)
    requires Framed(db, db1) && (Negotiable(room.state) ==> Negotiable(db.room.state))
    ensures Framed(db, StoreRoom(db1, room))
  {
  }

  lemma ParticipantIsFramed(db: Db, p: Participant)
    ensures Framed(db, StoreParticipant(db, p))
  {
    SameParticipants(db.participants, StoreParticipant(db, p).participants);
  }

  lemma StoredIsFramed(db: Db, p: Participant)
    ensures Framed(db, MarkReady(StoreParticipant(db, p)))
  {
    var stored := StoreParticipant(db, p);
    ParticipantIsFramed(db, p);
    RoomIsFramed(db, stored, stored.room.(state := Ready));
  }

  lemma ApproveContractIsFramed(db: Db, caller: Id, version: int)
    ensures Framed(db, ApproveContract(db, caller, version).0)
  {
    NothingIsFramed(db);
    if ApproveContract(db, caller, version).1.Ok? { StoredIsFramed(db, Find(db.participants, caller).value.(contractApproved := Some(version))); }
  }

  lemma SetPolicyIsFramed(db: Db, caller: Id, policy: Option<ParticipantPolicy>)
    ensures Framed(db, SetPolicy(db, caller, policy).0)
  {
    NothingIsFramed(db);
    if SetPolicy(db, caller, policy).1.Ok? { StoredIsFramed(db, Find(db.participants, caller).value.(policy := policy)); }
  }

  lemma ConnectIsFramed(db: Db, caller: Id, agent: Id, owned: bool)
    ensures Framed(db, ConnectAgent(db, caller, agent, owned).0)
  {
    NothingIsFramed(db);
    if ConnectAgent(db, caller, agent, owned).1.Ok? { StoredIsFramed(db, Find(db.participants, caller).value.(agent := Some(agent))); }
  }

  lemma RedeemIsFramed(db: Db, org: OrgId, inviteId: Id, addressOk: bool, now: int)
    ensures Framed(db, RedeemInvite(db, org, inviteId, addressOk, now).0)
  {
    SameParticipants(db.participants, RedeemInvite(db, org, inviteId, addressOk, now).0.participants);
  }

  lemma InviteIsFramed(db: Db, caller: Id, expiresInMs: int, now: int)
    ensures Framed(db, CreateInvite(db, caller, expiresInMs, now).0)
  {
  }

  lemma StartIsFramed(db: Db, caller: Id, now: int)
    ensures Framed(db, StartRoom(db, caller, now).0)
  {
    NothingIsFramed(db);
    if StartRoom(db, caller, now).1.Ok? {
      RoomIsFramed(db, db, db.room.(state := Active));
      RoomIsFramed(db, Moved(db, Active), StartRoom(db, caller, now).0.room);
    }
  }

  lemma ChangeIsFramed(db: Db, caller: Id, to: RoomState)
    requires !Negotiable(to)
    ensures Framed(db, ChangeState(db, caller, to).0)
  {
    NothingIsFramed(db);
    RoomIsFramed(db, db, db.room.(state := to));
  }

  lemma VerifyIsFramed(db: Db, caller: Id, evidenceId: Id, user: UserId)
    ensures Framed(db, VerifyEvidence(db, caller, evidenceId, user).0)
  {
    NothingIsFramed(db);
  }

  lemma CloseIsFramed(db: Db, caller: Id, now: int)
    ensures Framed(db, CloseRoom(db, caller, now).0)
  {
  }

  lemma CompletionIsFramed(db: Db, caller: Id, user: UserId, now: int)
    ensures Framed(db, ApproveCompletion(db, caller, user, now).0)
  {
    NothingIsFramed(db);
    if ApproveCompletion(db, caller, user, now).1.Ok? {
      var stored := StoreParticipant(db, Find(db.participants, caller).value.(completionApprovedBy := Some(user)));
      ParticipantIsFramed(db, Find(db.participants, caller).value.(completionApprovedBy := Some(user)));
      RoomIsFramed(db, stored, stored.room.(state := Completed, completedAt := Some(now)));
    }
  }

  /** The contract can change only while no event and no approval depends on it. */
  lemma ProposeKeeps(env: Env, db: Db, caller: Id, contract: Option<Contract>)
    requires Inv(env, db)
    ensures Inv(env, ProposeContract(db, caller, contract).0)
  {
    var db' := ProposeContract(db, caller, contract).0;
    if db' != db {
      forall i | 0 <= i < |db.events| ensures EventOk(env, db'.contracts, db.events[..i], db.events[i]) {
        assert EventOk(env, db.contracts, db.events[..i], db.events[i]);
        assert db.events[i] in db.events;
      }
    }
  }

  lemma SystemKeeps(env: Env, db: Db, reason: string, cost: real)
    requires Inv(env, db)
    ensures Inv(env, PauseForBudget(db, reason)) && Inv(env, AccountTurn(db, cost))
    ensures Inv(env, HaltRoom(db)) && Inv(env, ReportAgentFailure(db, reason))
  {
    NothingIsFramed(db);
    RoomIsFramed(db, db, db.room.(state := Paused));
    RoomIsFramed(db, db, AccountTurn(db, cost).room);
    FramedKeeps(env, db, Moved(db, Paused));
    FramedKeeps(env, db, AccountTurn(db, cost));
    NoteKeeps(env, db, AgentFailure(reason));
    NoteKeeps(env, Moved(db, Paused), RoomPaused(reason));
  }

  /** The calls that only rearrange what the invariant does not read. */
  predicate Frames(op: Op) { !op.OpPropose? && !Works(op) }

  lemma SetupIsFramed(env: Env, db: Db, op: Op)
    requires Frames(op) && SetsUp(op)
    ensures Framed(db, Exec(env, db, op))
  {
    match op
    case OpInvite(caller, expiresInMs, now) => InviteIsFramed(db, caller, expiresInMs, now);
    case OpRedeem(org, inviteId, addressOk, now) => RedeemIsFramed(db, org, inviteId, addressOk, now);
    case OpApproveContract(caller, version) => ApproveContractIsFramed(db, caller, version);
    case OpSetPolicy(caller, policy) => SetPolicyIsFramed(db, caller, policy);
    case OpConnect(caller, agent, owned) => ConnectIsFramed(db, caller, agent, owned);
  }

  lemma MoveIsFramed(env: Env, db: Db, op: Op)
    requires Frames(op) && !SetsUp(op)
    ensures Framed(db, Exec(env, db, op))
  {
    match op
    case OpClose(caller, now) => CloseIsFramed(db, caller, now);
    case OpApproveCompletion(caller, user, now) => CompletionIsFramed(db, caller, user, now);
    case OpStart(caller, now) => StartIsFramed(db, caller, now);
    case OpPause(caller) => ChangeIsFramed(db, caller, Paused);
    case OpResume(caller) => ChangeIsFramed(db, caller, Active);
    case OpCancel(caller) => ChangeIsFramed(db, caller, Canceled);
    case OpVerify(caller, evidenceId, user) => VerifyIsFramed(db, caller, evidenceId, user);
  }

  lemma OtherIsFramed(env: Env, db: Db, op: Op)
    requires Frames(op)
    ensures Framed(db, Exec(env, db, op))
  {
    if SetsUp(op) { SetupIsFramed(env, db, op); } else { MoveIsFramed(env, db, op); }
  }

  lemma SubmitKeeps(env: Env, db: Db, sender: Id, candidate: Option<Candidate>, now: int)
    requires env.Valid() && Inv(env, db)
    ensures Inv(env, Submit(env, db, sender, candidate, now).0)
  {
    var e := SubmitEffect(env, db, sender, candidate, now);
    EffectKeeps(env, db, e);
  }

  lemma DecideKeeps(env: Env, db: Db, org: OrgId, user: UserId, id: Id, approve: bool, now: int)
    requires Inv(env, db)
    ensures Inv(env, DecideApproval(env, db, org, user, id, approve, now).0)
  {
    var e := DecideEffect(env, db, org, user, id, approve, now);
    EffectKeeps(env, db, e);
  }

  lemma FramingKeeps(env: Env, db: Db, op: Op)
    requires Inv(env, db) && Frames(op)
    ensures Inv(env, Exec(env, db, op))
  {
    OtherIsFramed(env, db, op);
    FramedKeeps(env, db, Exec(env, db, op));
  }

  lemma SubmissionKeeps(env: Env, db: Db, op: Op)
    requires env.Valid() && Inv(env, db) && op.OpSubmit?
    ensures Inv(env, Exec(env, db, op))
  {
    SubmitKeeps(env, db, op.sender, op.candidate, op.now);
  }

  lemma DecisionKeeps(env: Env, db: Db, op: Op)
    requires Inv(env, db) && op.OpDecide?
    ensures Inv(env, Exec(env, db, op))
  {
    DecideKeeps(env, db, op.org, op.user, op.approvalId, op.approve, op.now);
  }

  lemma PlatformKeeps(env: Env, db: Db, op: Op)
    requires Inv(env, db) && Works(op) && !op.OpSubmit? && !op.OpDecide?
    ensures Inv(env, Exec(env, db, op))
  {
    var reason := if op.OpPauseForBudget? then op.reason else if op.OpReport? then op.detail else "";
    SystemKeeps(env, db, reason, if op.OpAccount? then op.cost else 0.0);
  }

  lemma WorkKeeps(env: Env, db: Db, op: Op)
    requires env.Valid() && Inv(env, db) && Works(op)
    ensures Inv(env, Exec(env, db, op))
  {
    if op.OpSubmit? { SubmissionKeeps(env, db, op); }
    else if op.OpDecide? { DecisionKeeps(env, db, op); }
    else { PlatformKeeps(env, db, op); }
  }

  lemma StepKeepsInv(env: Env, db: Db, op: Op)
    requires env.Valid() && Inv(env, db)
    ensures Inv(env, Exec(env, db, op))
  {
    if Works(op) { WorkKeeps(env, db, op); }
    else if op.OpPropose? { ProposeKeeps(env, db, op.caller, op.contract); }
    else { FramingKeeps(env, db, op); }
  }

  lemma {:induction false} RunKeepsInv(env: Env, db: Db, ops: seq<Op>)
    requires env.Valid() && Inv(env, db)
    ensures Inv(env, Run(env, db, ops))
    decreases |ops|
  {
    if ops != [] {
      StepKeepsInv(env, db, ops[0]);
      RunKeepsInv(env, Exec(env, db, ops[0]), ops[1..]);
    }
  }

  // ---------------------------------------------------------------------------------------------
  // The stream only grows
  // ---------------------------------------------------------------------------------------------

  lemma SideEffectsAppend(db: Db, db': Db, sender: Id, body: Body)
    requires db.events <= db'.events
    ensures db.events <= SideEffects(db', sender, body).events
  {
  }

  lemma EffectAppends(env: Env, db: Db, e: Effect)
    requires EffectOk(env, db, e)
    ensures db.events <= Apply(env, db, e).events
  {
    match e
    case Releasing(sender, body, labels) => SideEffectsAppend(db, Released(db, sender, body, labels), sender, body);
    case Authorizing(id, user, now) =>
      var a := db.approvals[id];
      var released := Released(Decided(db, id, Approved, user, now), a.requestedBy, a.body, env.scan(a.body, None).classification);
      SideEffectsAppend(db, Noted(released, ActionAuthorized(id, ActionOf(a.body), db.nextId)), a.requestedBy, a.body);
    case _ =>
  }

  lemma SubmitAppends(env: Env, db: Db, sender: Id, candidate: Option<Candidate>, now: int)
    requires env.Valid()
    ensures db.events <= Submit(env, db, sender, candidate, now).0.events
  {
    var e := SubmitEffect(env, db, sender, candidate, now);
    EffectAppends(env, db, e);
  }

  lemma DecideAppends(env: Env, db: Db, org: OrgId, user: UserId, id: Id, approve: bool, now: int)
    ensures db.events <= DecideApproval(env, db, org, user, id, approve, now).0.events
  {
    var e := DecideEffect(env, db, org, user, id, approve, now);
    EffectAppends(env, db, e);
  }

  lemma WorkAppends(env: Env, db: Db, op: Op)
    requires env.Valid() && Works(op)
    ensures db.events <= Exec(env, db, op).events
  {
    match op
    case OpSubmit(sender, candidate, now) => SubmitAppends(env, db, sender, candidate, now);
    case OpDecide(org, user, id, approve, now) => DecideAppends(env, db, org, user, id, approve, now);
    case _ =>
  }

  lemma StepAppends(env: Env, db: Db, op: Op)
    requires env.Valid()
    ensures db.events <= Exec(env, db, op).events
  {
    if Works(op) { WorkAppends(env, db, op); } else if !op.OpPropose? { OtherIsFramed(env, db, op); }
  }

  /** No call rewrites, removes or reorders an event. */
  lemma {:induction false} StreamOnlyGrows(env: Env, db: Db, ops: seq<Op>)
    requires env.Valid()
    ensures db.events <= Run(env, db, ops).events
    decreases |ops|
  {
    if ops != [] {
      StepAppends(env, db, ops[0]);
      StreamOnlyGrows(env, Exec(env, db, ops[0]), ops[1..]);
    }
  }

  // ---------------------------------------------------------------------------------------------
  // Whose humans decide
  // ---------------------------------------------------------------------------------------------

  predicate IsParty(ps: seq<Participant>, id: Id, org: OrgId) { exists p :: p in ps && p.id == id && p.org == org }

  /** Every approval is for the organization of the participant who asked. */
  predicate OwnersOk(db: Db) {
    forall id :: id in db.approvals ==> IsParty(db.participants, db.approvals[id].requestedBy, db.approvals[id].approverOrg)
  }

  predicate PartiesStay(db: Db, db': Db) {
    && |db.participants| <= |db'.participants|
    && forall i :: 0 <= i < |db.participants| ==> Lifecycle.SameParty(db.participants[i], db'.participants[i])
  }

  /** Approvals are old ones with the same request, or belong to a participant. */
  predicate RequestsStay(db: Db, db': Db) {
    forall id :: id in db'.approvals ==>
      || (id in db.approvals && SameRequest(db.approvals[id], db'.approvals[id]))
      || IsParty(db.participants, db'.approvals[id].requestedBy, db'.approvals[id].approverOrg)
  }

  lemma PartyStays(db: Db, db': Db, id: Id, org: OrgId)
    requires PartiesStay(db, db') && IsParty(db.participants, id, org)
    ensures IsParty(db'.participants, id, org)
  {
    var i :| 0 <= i < |db.participants| && db.participants[i].id == id && db.participants[i].org == org;
    assert db'.participants[i] in db'.participants;
  }

  lemma OwnersStay(db: Db, db': Db)
    requires OwnersOk(db) && PartiesStay(db, db') && RequestsStay(db, db')
    ensures OwnersOk(db')
  {
    forall id | id in db'.approvals ensures IsParty(db'.participants, db'.approvals[id].requestedBy, db'.approvals[id].approverOrg) {
      PartyStays(db, db', db'.approvals[id].requestedBy, db'.approvals[id].approverOrg);
    }
  }

  lemma JoiningKeepsParties(db: Db, org: OrgId, inviteId: Id, addressOk: bool, now: int)
    ensures PartiesStay(db, RedeemInvite(db, org, inviteId, addressOk, now).0)
  {
  }

  lemma StartAndCloseKeepParties(db: Db, caller: Id, expiresInMs: int, now: int)
    ensures StartRoom(db, caller, now).0.participants == db.participants
    ensures CloseRoom(db, caller, now).0.participants == db.participants
    ensures CreateInvite(db, caller, expiresInMs, now).0.participants == db.participants
  {
  }

  lemma StepPartiesStay(env: Env, db: Db, op: Op)
    requires env.Valid() && Lifecycle.PartiesOk(db)
    ensures PartiesStay(db, Exec(env, db, op))
  {
    if op.OpRedeem? { JoiningKeepsParties(db, op.org, op.inviteId, op.addressOk, op.now); }
    else if op.OpInvite? { StartAndCloseKeepParties(db, op.caller, op.expiresInMs, op.now); }
    else if op.OpStart? || op.OpClose? { StartAndCloseKeepParties(db, op.caller, 0, op.now); }
    else { Lifecycle.OtherStepIsQuiet(env, db, op); }
  }

  lemma SideEffectsKeepApprovals(db: Db, sender: Id, body: Body)
    ensures SideEffects(db, sender, body).approvals == db.approvals
  {
  }

  lemma EffectRequestsStay(env: Env, db: Db, e: Effect)
    requires EffectOk(env, db, e)
    ensures RequestsStay(db, Apply(env, db, e))
  {
    match e
    case Releasing(sender, body, labels) => SideEffectsKeepApprovals(Released(db, sender, body, labels), sender, body);
    case Authorizing(id, user, now) =>
      var a := db.approvals[id];
      var released := Released(Decided(db, id, Approved, user, now), a.requestedBy, a.body, env.scan(a.body, None).classification);
      SideEffectsKeepApprovals(Noted(released, ActionAuthorized(id, ActionOf(a.body), db.nextId)), a.requestedBy, a.body);
    case _ =>
  }

  lemma SubmitRequestsStay(env: Env, db: Db, op: Op)
    requires env.Valid() && op.OpSubmit?
    ensures RequestsStay(db, Exec(env, db, op))
  {
    var e := SubmitEffect(env, db, op.sender, op.candidate, op.now);
    EffectRequestsStay(env, db, e);
  }

  lemma DecideRequestsStay(env: Env, db: Db, op: Op)
    requires op.OpDecide?
    ensures RequestsStay(db, Exec(env, db, op))
  {
    var e := DecideEffect(env, db, op.org, op.user, op.approvalId, op.approve, op.now);
    EffectRequestsStay(env, db, e);
  }

  lemma PlatformRequestsStay(env: Env, db: Db, op: Op)
    requires op.OpPropose? || op.OpPauseForBudget? || op.OpAccount? || op.OpHalt? || op.OpReport?
    ensures RequestsStay(db, Exec(env, db, op))
  {
    assert Exec(env, db, op).approvals == db.approvals;
  }

  lemma FramedRequestsStay(env: Env, db: Db, op: Op)
    requires Frames(op)
    ensures RequestsStay(db, Exec(env, db, op))
  {
    OtherIsFramed(env, db, op);
  }

  lemma StepRequestsStay(env: Env, db: Db, op: Op)
    requires env.Valid()
    ensures RequestsStay(db, Exec(env, db, op))
  {
    if op.OpSubmit? { SubmitRequestsStay(env, db, op); }
    else if op.OpDecide? { DecideRequestsStay(env, db, op); }
    else if Frames(op) { FramedRequestsStay(env, db, op); }
    else { PlatformRequestsStay(env, db, op); }
  }

  lemma {:induction false} RunKeepsOwners(env: Env, db: Db, ops: seq<Op>)
    requires env.Valid() && Lifecycle.Inv(db) && OwnersOk(db)
    ensures OwnersOk(Run(env, db, ops))
    decreases |ops|
  {
    if ops != [] {
      var next := Exec(env, db, ops[0]);
      StepPartiesStay(env, db, ops[0]);
      StepRequestsStay(env, db, ops[0]);
      OwnersStay(db, next);
      Lifecycle.StepKeepsInv(env, db, ops[0]);
      RunKeepsOwners(env, next, ops[1..]);
    }
  }

  // ---------------------------------------------------------------------------------------------
  // Main results
  // ---------------------------------------------------------------------------------------------

  lemma ReachableIsInv(env: Env, org: OrgId, budget: Budget, ops: seq<Op>)
    requires env.Valid()
    ensures Inv(env, Run(env, CreateRoom(org, budget), ops))
  {
    RunKeepsInv(env, CreateRoom(org, budget), ops);
  }

  /** Whatever detectors and digest the platform runs with, in every reachable stream each event of an agent, allowed
      directly or released by a human, has a body in which no secret is found, no hard-deny label, and no label other than
      "general" that the room's latest contract forbids. */
  lemma AgentEventsAreClean(d: Dlp.Detectors, digest: string -> string, org: OrgId, budget: Budget, ops: seq<Op>, e: Event)
    requires e in Run(EnvOf(d, digest), CreateRoom(org, budget), ops).events && e.sender.Some?
    ensures var db := Run(EnvOf(d, digest), CreateRoom(org, budget), ops);
      && e.content.FromAgent? && db.contracts != []
      && Dlp.Scan(d, BodyJson(e.content.body), None).secretFindings == []
      && forall c :: c in e.classification.categories ==>
           c !in HARD_DENY && (c != General ==> c !in Latest(db.contracts).contract.forbiddenDataClasses)
  {
    var env := EnvOf(d, digest);
    EnvOfIsValid(d, digest);
    ReachableIsInv(env, org, budget, ops);
    var db := Run(env, CreateRoom(org, budget), ops);
    var i :| 0 <= i < |db.events| && db.events[i] == e;
    assert EventOk(env, db.contracts, db.events[..i], db.events[i]);
  }

  /** In every reachable stream each data response, released ones included, answers an earlier data request of the other
      participant, and carries no field that the request did not name. */
  lemma ResponsesAnswerRequests(env: Env, org: OrgId, budget: Budget, ops: seq<Op>, i: nat) returns (j: nat)
    requires env.Valid()
    requires var events := Run(env, CreateRoom(org, budget), ops).events;
      i < |events| && events[i].content.FromAgent? && events[i].content.body.DataResponse?
    ensures var events := Run(env, CreateRoom(org, budget), ops).events;
      && j < i && events[j].id == events[i].content.body.requestId
      && events[j].content.FromAgent? && events[j].content.body.DataRequest?
      && events[j].sender.Some? && events[i].sender.Some? && events[j].sender != events[i].sender
      && forall f :: f in events[i].content.body.data ==> f.key in events[j].content.body.requestedFields
  {
    ReachableIsInv(env, org, budget, ops);
    var db := Run(env, CreateRoom(org, budget), ops);
    var e := db.events[i];
    assert EventOk(env, db.contracts, db.events[..i], e);
    var request :| request in db.events[..i] && Answers(request, e.sender.value, e.content.body);
    j :| 0 <= j < i && db.events[..i][j] == request;
    assert EventOk(env, db.contracts, db.events[..j], db.events[j]);
  }

  /** In every reachable room the events are numbered 1, 2, 3, ... and no two share an id. */
  lemma SequencesHaveNoGaps(env: Env, org: OrgId, budget: Budget, ops: seq<Op>)
    requires env.Valid()
    ensures var events := Run(env, CreateRoom(org, budget), ops).events;
      && (forall i :: 0 <= i < |events| ==> events[i].sequence == i + 1)
      && forall i, j :: 0 <= i < |events| && 0 <= j < |events| && events[i].id == events[j].id ==> i == j
  {
    ReachableIsInv(env, org, budget, ops);
  }

  /** In every reachable room the two refusals "parameters changed" and "contains secret material" never happen: a human
      of the asking participant's own organization succeeds, either way, exactly while the approval is pending and not past
      its expiry. */
  lemma DecisionSucceedsIff(env: Env, org: OrgId, budget: Budget, ops: seq<Op>, deciding: OrgId, user: UserId, id: Id, approve: bool, now: int)
    requires env.Valid()
    requires id in Run(env, CreateRoom(org, budget), ops).approvals
    ensures var db := Run(env, CreateRoom(org, budget), ops);
      var a := db.approvals[id];
      && (DecideApproval(env, db, deciding, user, id, approve, now).1 == Ok(if approve then Approved else Rejected) <==>
            deciding == a.approverOrg && a.status == Pending && now <= a.expiresAt)
      && DecideApproval(env, db, deciding, user, id, approve, now).1 != Err(NotFound)
      && exists p :: p in db.participants && p.id == a.requestedBy && p.org == a.approverOrg
  {
    ReachableIsInv(env, org, budget, ops);
    Lifecycle.CreatedIsInv(org, budget);
    RunKeepsOwners(env, CreateRoom(org, budget), ops);
    var db := Run(env, CreateRoom(org, budget), ops);
    assert ApprovalOk(env, db, db.approvals[id]);
  }

  // ---------------------------------------------------------------------------------------------
  // Blocked content
  // ---------------------------------------------------------------------------------------------

  /** A submission that the policy blocked, as the pipeline sees it. */
  lemma BlockedIsBlock(env: Env, db: Db, sender: Id, candidate: Candidate, now: int, rule: Rule)
    requires Submit(env, db, sender, Some(candidate), now).1 == Blocked(rule)
    ensures Submit(env, db, sender, Some(candidate), now).0 == Block(db, sender, candidate.body, rule, rule == SecretDisclosure)
  {
    var p := Find(db.participants, sender).value;
    var body := Restricted(db, p.id, candidate.body).value;
    assert TypeOf(body) == TypeOf(candidate.body);
    var dlp := env.scan(body, candidate.declared);
    assert Decide(PolicyInput(db, body, dlp), p.policy.value, Latest(db.contracts).contract) == Deny(rule);
    assert rule == SecretDisclosure <==> |dlp.secretFindings| > 0;
  }

  /** Blocked content leaves no trace: two candidates of the same type that are blocked by the same rule leave the very
      same room behind, whatever they said. */
  lemma BlockedContentLeavesNoTrace(env: Env, db: Db, sender: Id, a: Candidate, b: Candidate, now: int, rule: Rule)
    requires TypeOf(a.body) == TypeOf(b.body)
    requires Submit(env, db, sender, Some(a), now).1 == Blocked(rule) && Submit(env, db, sender, Some(b), now).1 == Blocked(rule)
    ensures Submit(env, db, sender, Some(a), now).0 == Submit(env, db, sender, Some(b), now).0
  {
    BlockedIsBlock(env, db, sender, a, now, rule);
    BlockedIsBlock(env, db, sender, b, now, rule);
  }

  /** A blocked secret stops a room that routes events exactly when it is at least the third of its sender. */
  lemma ThirdSecretStopsTheRoom(env: Env, db: Db, sender: Id, candidate: Candidate, now: int)
    requires Submit(env, db, sender, Some(candidate), now).1 == Blocked(SecretDisclosure)
    ensures var db' := Submit(env, db, sender, Some(candidate), now).0;
      && SecretBlocks(db'.events, sender) == SecretBlocks(db.events, sender) + 1
      && (Routes(db'.room.state) <==> Routes(db.room.state) && SecretBlocks(db.events, sender) < 2)
  {
    BlockedIsBlock(env, db, sender, candidate, now, SecretDisclosure);
    var db' := Submit(env, db, sender, Some(candidate), now).0;
    assert db'.events[..|db.events|] == db.events;
  }
}
