/** What each service call does to a room's records, as a function: rooms.ts, pipeline.ts, approvals.ts, and the writes of
    orchestrator.ts and runtime.ts in packages/core/src. Every call is one atomic step; a call that the program ends with
    an exception gives an error together with whatever it had already stored. */
module RoomSpec {
  import opened Wrappers
  import opened Json
  import opened Policy
  import opened Events
  import opened RoomData

  const DAY_MS := 24 * 3_600_000

  // ---------------------------------------------------------------------------------------------
  // Store operations
  // ---------------------------------------------------------------------------------------------

  function StoreRoom(db: Db, room: Room): Db { db.(room := room, history := db.history + [room.state]) }

  function Moved(db: Db, to: RoomState): Db { StoreRoom(db, db.room.(state := to)) }

  function StoreParticipant(db: Db, p: Participant): Db { db.(participants := Replaced(db.participants, p)) }

  /** Appends an event under a new id with the next sequence number. */
  function Appended(db: Db, sender: Option<Id>, recipient: Option<Id>, content: Content, labels: Classification): Db {
    db.(events := db.events + [Event(db.nextId, |db.events| + 1, sender, recipient, content, labels)], nextId := db.nextId + 1)
  }

  const PLATFORM_LABEL := Classification(InternalLevel, [General])

  function Noted(db: Db, notice: Notice): Db { Appended(db, None, None, FromPlatform(notice), PLATFORM_LABEL) }

  function StoreStatus(db: Db, id: Id, status: Status): Db
    requires id in db.approvals
  {
    db.(approvals := db.approvals[id := db.approvals[id].(status := status)])
  }

  // ---------------------------------------------------------------------------------------------
  // Setting a room up (rooms.ts)
  // ---------------------------------------------------------------------------------------------

  /** A new room with its creator as the first participant. */
  function CreateRoom(org: OrgId, budget: Budget): Db {
    Db(
      Room(Draft, budget, Usage(0, 0, 0.0, None), None, None, None),
      [Participant(0, org, Customer, None, None, None, None)],
      map[], [], [], map[], map[], map[], 1, [Draft])
  }

  function CreateInvite(db: Db, caller: Id, expiresInMs: int, now: int): (Db, Result<Id>) {
    match Find(db.participants, caller)
    case None => (db, Err(NotFound))
    case Some(p) =>
      if db.room.state != Draft && db.room.state != Invited then (db, Err(BadState))
      else
        var id := db.nextId;
        var db' := db.(invites := db.invites[id := Invite(p.org, now + expiresInMs, None, None, 1, 0)], nextId := id + 1);
        (if db.room.state == Draft then Moved(db', Invited) else db', Ok(id))
  }

  /** Why an invite cannot be redeemed; `addressOk` says whether the caller has the address it is bound to. */
  function InviteProblem(db: Db, inviteId: Id, addressOk: bool, now: int): Option<Error> {
    if inviteId !in db.invites then Some(NotFound)
    else
      var invite := db.invites[inviteId];
      if invite.revokedAt.Some? || invite.expiresAt < now || invite.redemptions >= invite.maxRedemptions then Some(BadState)
      else if !addressOk then Some(Forbidden)
      else None
  }

  /** The invite is used up and the participant stored before the room state is checked. */
  function RedeemInvite(db: Db, org: OrgId, inviteId: Id, addressOk: bool, now: int): (Db, Result<Id>) {
    var problem := InviteProblem(db, inviteId, addressOk, now);
    if problem.Some? then (db, Err(problem.value))
    else if org == db.invites[inviteId].invitingOrg then (db, Err(Validation))
    else if exists p :: p in db.participants && p.org == org then (db, Err(Conflict))
    else if |db.participants| >= 2 then (db, Err(Conflict))
    else
      var invite := db.invites[inviteId];
      var id := db.nextId;
      var db' := db.(
        invites := db.invites[inviteId := invite.(redemptions := invite.redemptions + 1, redeemedAt := Some(now))],
        participants := db.participants + [Participant(id, org, Provider, None, None, None, None)],
        nextId := id + 1);
      if CanTransition(db.room.state, Negotiating) then (Moved(db', Negotiating), Ok(id)) else (db', Err(BadState))
  }

  predicate Negotiable(s: RoomState) { s.Draft? || s.Invited? || s.Negotiating? }

  function Unapproved(ps: seq<Participant>): (r: seq<Participant>)
    ensures |r| == |ps| && forall i :: 0 <= i < |ps| ==> r[i] == ps[i].(contractApproved := None)
  {
    if ps == [] then [] else [ps[0].(contractApproved := None)] + Unapproved(ps[1..])
  }

  /** A new version voids every approval. */
  function ProposeContract(db: Db, caller: Id, contract: Option<Contract>): (Db, Result<int>) {
    if Find(db.participants, caller).None? then (db, Err(NotFound))
    else if !Negotiable(db.room.state) then (db, Err(BadState))
    else match contract
      case None => (db, Err(Validation))
      case Some(c) =>
        var version := LatestVersion(db.contracts) + 1;
        (db.(contracts := db.contracts + [ContractVersion(version, c)], participants := Unapproved(db.participants)), Ok(version))
  }

  predicate IsReady(p: Participant, version: int) {
    p.contractApproved == Some(version) && p.policy.Some? && p.agent.Some?
  }

  /** Two participants that both approved the latest contract and have a policy and an agent. */
  predicate Agreed(db: Db) {
    db.contracts != [] && |db.participants| == 2 && forall p :: p in db.participants ==> IsReady(p, LatestVersion(db.contracts))
  }

  function MarkReady(db: Db): Db { if db.room.state == Negotiating && Agreed(db) then Moved(db, Ready) else db }

  function ApproveContract(db: Db, caller: Id, version: int): (Db, Result<()>) {
    match Find(db.participants, caller)
    case None => (db, Err(NotFound))
    case Some(p) =>
      if db.contracts == [] then (db, Err(BadState))
      else if LatestVersion(db.contracts) != version then (db, Err(Conflict))
      else (MarkReady(StoreParticipant(db, p.(contractApproved := Some(version)))), Ok(()))
  }

  predicate PolicyFrozen(s: RoomState) { s.Active? || s.CompletionProposed? || s.Completed? || s.Closed? || s.Canceled? }

  function SetPolicy(db: Db, caller: Id, policy: Option<ParticipantPolicy>): (Db, Result<()>) {
    match Find(db.participants, caller)
    case None => (db, Err(NotFound))
    case Some(p) =>
      if PolicyFrozen(db.room.state) then (db, Err(BadState))
      else if policy.None? then (db, Err(Validation))
      else (MarkReady(StoreParticipant(db, p.(policy := policy))), Ok(()))
  }

  /** `owned`: the connection belongs to the caller's organization. */
  function ConnectAgent(db: Db, caller: Id, agent: Id, owned: bool): (Db, Result<()>) {
    match Find(db.participants, caller)
    case None => (db, Err(NotFound))
    case Some(p) =>
      if !owned then (db, Err(NotFound)) else (MarkReady(StoreParticipant(db, p.(agent := Some(agent)))), Ok(()))
  }

  // ---------------------------------------------------------------------------------------------
  // Lifecycle (rooms.ts)
  // ---------------------------------------------------------------------------------------------

  /** `transition`, as pause, resume and cancel use it. */
  function ChangeState(db: Db, caller: Id, to: RoomState): (Db, Result<()>) {
    if Find(db.participants, caller).None? then (db, Err(NotFound))
    else if !CanTransition(db.room.state, to) then (db, Err(BadState))
    else (Moved(db, to), Ok(()))
  }

  function StartRoom(db: Db, caller: Id, now: int): (Db, Result<()>) {
    if Find(db.participants, caller).None? then (db, Err(NotFound))
    else if db.room.state != Ready then (db, Err(BadState))
    else
      var db' := Moved(db, Active);
      (StoreRoom(db', db'.room.(startedAt := Some(now), usage := db'.room.usage.(startedAtMs := Some(now)))), Ok(()))
  }

  function Voided(a: Approval): Approval { if a.status == Pending then a.(status := Invalidated) else a }

  function Revoked(i: Invite, now: int): Invite {
    if i.revokedAt.None? && i.redeemedAt.None? then i.(revokedAt := Some(now)) else i
  }

  predicate ClosesDirectly(s: RoomState) { s.Completed? || s.Canceled? || s.Quarantined? }

  function CloseRoom(db: Db, caller: Id, now: int): (Db, Result<()>) {
    if Find(db.participants, caller).None? then (db, Err(NotFound))
    else if !ClosesDirectly(db.room.state) && !CanTransition(db.room.state, Canceled) then (db, Err(BadState))
    else
      var current := if ClosesDirectly(db.room.state) then db else Moved(db, Canceled);
      var closed := StoreRoom(current, current.room.(state := Closed, closedAt := Some(now)));
      (closed.(
         approvals := map id | id in db.approvals :: Voided(db.approvals[id]),
         invites := map id | id in db.invites :: Revoked(db.invites[id], now)),
       Ok(()))
  }

  function Quarantine(db: Db): Db { if CanTransition(db.room.state, Quarantined) then Moved(db, Quarantined) else db }

  // ---------------------------------------------------------------------------------------------
  // Completion (rooms.ts, approvals.ts)
  // ---------------------------------------------------------------------------------------------

  /** Every evidence-required criterion of the latest contract has some evidence. */
  predicate Satisfied(db: Db) {
    db.contracts != [] && forall c :: c in Latest(db.contracts).contract.completionCriteria && c.evidenceRequired ==> c.id in db.criteria
  }

  /** ... and a human has verified it. */
  predicate AllVerified(db: Db) {
    db.contracts != [] && forall c :: c in Latest(db.contracts).contract.completionCriteria && c.evidenceRequired ==>
      c.id in db.criteria && db.criteria[c.id] == Verified
  }

  predicate BothApprovedCompletion(db: Db) { forall p :: p in db.participants ==> p.completionApprovedBy.Some? }

  function ApproveCompletion(db: Db, caller: Id, user: UserId, now: int): (Db, Result<()>) {
    match Find(db.participants, caller)
    case None => (db, Err(NotFound))
    case Some(p) =>
      if db.room.state != CompletionProposed || !Satisfied(db) || !AllVerified(db) then (db, Err(BadState))
      else
        var db' := StoreParticipant(db, p.(completionApprovedBy := Some(user)));
        (if BothApprovedCompletion(db') then StoreRoom(db', db'.room.(state := Completed, completedAt := Some(now))) else db', Ok(()))
  }

  function VerifyEvidence(db: Db, caller: Id, evidenceId: Id, user: UserId): (Db, Result<()>) {
    if Find(db.participants, caller).None? then (db, Err(NotFound))
    else if evidenceId !in db.evidence then (db, Err(NotFound))
    else
      var e := db.evidence[evidenceId];
      (db.(evidence := db.evidence[evidenceId := e.(verification := HumanVerified, verifiedBy := Some(user))],
           criteria := db.criteria[e.criterionId := Verified]),
       Ok(()))
  }

  // ---------------------------------------------------------------------------------------------
  // The event pipeline (pipeline.ts)
  // ---------------------------------------------------------------------------------------------

  datatype Candidate = Candidate(body: Body, declared: Option<Classification>)

  datatype Refusal = SchemaInvalid | NoPeerRequest | NoPolicy | NoContract

  datatype Submission =
    | Unknown
    | Dropped(why: Refusal)
    | Allowed(eventId: Id)
    | Blocked(rule: Rule)
    | Held(approvalId: Id)

  /** The event is a data request from somebody else. */
  predicate IsPeerRequest(e: Event, requestId: Id, sender: Id) {
    e.id == requestId && e.content.FromAgent? && e.content.body.DataRequest? && e.sender != Some(sender)
  }

  function FindRequest(events: seq<Event>, requestId: Id, sender: Id): (r: Option<Event>)
    ensures r.Some? ==> r.value in events && IsPeerRequest(r.value, requestId, sender)
    ensures r.None? ==> forall e :: e in events ==> !IsPeerRequest(e, requestId, sender)
  {
    if events == [] then None
    else if IsPeerRequest(events[0], requestId, sender) then Some(events[0])
    else FindRequest(events[1..], requestId, sender)
  }

  /** The entries whose names were asked for. */
  function Filtered(data: seq<Entry<Scalar>>, fields: seq<string>): (r: seq<Entry<Scalar>>)
    ensures forall e :: e in r <==> e in data && e.key in fields
  {
    if data == [] then []
    else
      var rest := Filtered(data[1..], fields);
      if data[0].key in fields then [data[0]] + rest else rest
  }

  /** A data response keeps only what the peer's request named; other bodies pass unchanged. */
  function Restricted(db: Db, sender: Id, body: Body): Option<Body> {
    if !body.DataResponse? then Some(body)
    else match FindRequest(db.events, body.requestId, sender)
      case None => None
      case Some(request) => Some(body.(data := Filtered(body.data, request.content.body.requestedFields)))
  }

  function PolicyInput(db: Db, body: Body, r: Dlp.Report): Input {
    Input(db.room.state, TypeOf(body), r.classification.sensitivity, r.classification.categories, ActionOf(body), |r.secretFindings|)
  }

  predicate IsSecretBlock(e: Event, sender: Id) {
    && e.content.FromPlatform? && e.content.notice.PolicyBlock?
    && e.content.notice.blockedParticipant == sender && e.content.notice.rule == SecretDisclosure
  }

  function SecretBlocks(events: seq<Event>, sender: Id): nat {
    if events == [] then 0 else (if IsSecretBlock(events[|events| - 1], sender) then 1 else 0) + SecretBlocks(events[..|events| - 1], sender)
  }

  /** The block is noted without its content; the third secret from one sender quarantines the room. */
  function Block(db: Db, sender: Id, body: Body, rule: Rule, wasSecret: bool): Db {
    var db' := Noted(db, PolicyBlock(TypeOf(body), sender, rule));
    if wasSecret && SecretBlocks(db'.events, sender) >= 3 then Quarantine(db') else db'
  }

  function Hold(env: Env, db: Db, sender: Participant, body: Body, now: int): Db {
    var id := db.nextId;
    var a := Approval(sender.id, body, env.hash(body), Pending, None, None, sender.org, now + DAY_MS, None);
    Noted(db.(approvals := db.approvals[id := a], nextId := id + 1), ApprovalRequested(id, sender.id, TypeOf(body), ActionOf(body)))
  }

  /** The event reaches the stream, addressed to the other participant. */
  function Released(db: Db, sender: Id, body: Body, labels: Classification): Db {
    Appended(db, Some(sender), Peer(db.participants, sender), FromAgent(body), labels)
  }

  predicate HasCriterion(db: Db, id: string) {
    db.contracts != [] && exists c :: c in Latest(db.contracts).contract.completionCriteria && c.id == id
  }

  /** Evidence is recorded as claimed and never undoes a verification; a completion proposal moves an active room on when
      every criterion has evidence. */
  function SideEffects(db: Db, sender: Id, body: Body): Db {
    match body
    case EvidenceSubmission(criterionId, _, _, _) =>
      if !HasCriterion(db, criterionId) then db
      else
        var db' := db.(evidence := db.evidence[db.nextId := Evidence(criterionId, sender, Claimed, None)], nextId := db.nextId + 1);
        if criterionId in db.criteria && db.criteria[criterionId] == Verified then db'
        else db'.(criteria := db.criteria[criterionId := EvidenceSubmitted])
    case CompletionProposal(_) =>
      if !Satisfied(db) then Noted(db, CompletionRejected)
      else if db.room.state == Active then Moved(db, CompletionProposed)
      else db
    case _ => db
  }

  /** `submitCandidateEvent` once a candidate has passed the schema, for a known sender. */
  function Judge(env: Env, db: Db, sender: Participant, body: Body, declared: Option<Classification>, now: int): (Db, Submission) {
    var dlp := env.scan(body, declared);
    if sender.policy.None? then (db, Dropped(NoPolicy))
    else if db.contracts == [] then (db, Dropped(NoContract))
    else match Decide(PolicyInput(db, body, dlp), sender.policy.value, Latest(db.contracts).contract)
      case Deny(rule) => (Block(db, sender.id, body, rule, |dlp.secretFindings| > 0), Blocked(rule))
      case RequireApproval(_) => (Hold(env, db, sender, body, now), Held(db.nextId))
      case Allow => (SideEffects(Released(db, sender.id, body, dlp.classification), sender.id, body), Allowed(db.nextId))
  }

  function Submit(env: Env, db: Db, senderId: Id, candidate: Option<Candidate>, now: int): (Db, Submission) {
    match Find(db.participants, senderId)
    case None => (db, Unknown)
    case Some(sender) =>
      if candidate.None? then (db, Dropped(SchemaInvalid))
      else match Restricted(db, sender.id, candidate.value.body)
        case None => (db, Dropped(NoPeerRequest))
        case Some(body) => Judge(env, db, sender, body, candidate.value.declared, now)
  }

  // ---------------------------------------------------------------------------------------------
  // Approval decisions (approvals.ts)
  // ---------------------------------------------------------------------------------------------

  function Decided(db: Db, id: Id, status: Status, user: UserId, now: int): Db
    requires id in db.approvals
  {
    db.(approvals := db.approvals[id := db.approvals[id].(
      status := status, decidedBy := Some(user), decidedAt := Some(now),
      consumedAt := if status == Approved then Some(now) else db.approvals[id].consumedAt)])
  }

  /** Releasing an approved body: the event, the authorization that names it, and the event's effects. */
  function Authorize(env: Env, db: Db, id: Id, user: UserId, now: int): Db
    requires id in db.approvals
  {
    var a := db.approvals[id];
    var released := Released(Decided(db, id, Approved, user, now), a.requestedBy, a.body, env.scan(a.body, None).classification);
    SideEffects(Noted(released, ActionAuthorized(id, ActionOf(a.body), db.nextId)), a.requestedBy, a.body)
  }

  /** `org`: the organization whose administrator is deciding. */
  function DecideApproval(env: Env, db: Db, org: OrgId, user: UserId, id: Id, approve: bool, now: int): (Db, Result<Status>) {
    if id !in db.approvals then (db, Err(NotFound))
    else
      var a := db.approvals[id];
      if org != a.approverOrg then (db, Err(Forbidden))
      else if a.status != Pending then (db, Err(Conflict))
      else if a.expiresAt < now then (StoreStatus(db, id, Expired), Err(BadState))
      else if Find(db.participants, a.requestedBy).None? then (db, Err(NotFound))
      else if !approve then (Noted(Decided(db, id, Rejected, user, now), ActionRejected(id, ActionOf(a.body))), Ok(Rejected))
      else if env.hash(a.body) != a.parametersHash then (StoreStatus(db, id, Invalidated), Err(Conflict))
      else if |env.scan(a.body, None).secretFindings| > 0 then (StoreStatus(db, id, Invalidated), Err(Forbidden))
      else (Authorize(env, db, id, user, now), Ok(Approved))
  }

  // ---------------------------------------------------------------------------------------------
  // Writes of the orchestrator and the runtime (orchestrator.ts, runtime.ts)
  // ---------------------------------------------------------------------------------------------

  function PauseForBudget(db: Db, reason: string): Db {
    if db.room.state != Active then db else Noted(Moved(db, Paused), RoomPaused(reason))
  }

  /** Usage is counted on the room as it is after the adapter answered. */
  function AccountTurn(db: Db, cost: real): Db {
    StoreRoom(db, db.room.(usage := db.room.usage.(turns := db.room.usage.turns + 1, spend := db.room.usage.spend + cost)))
  }

  function HaltRoom(db: Db): Db { if db.room.state == Active then Moved(db, Paused) else db }

  function ReportAgentFailure(db: Db, detail: string): Db { Noted(db, AgentFailure(detail)) }

  // ---------------------------------------------------------------------------------------------
  // Runs
  // ---------------------------------------------------------------------------------------------

  /** One service call with its inputs. A turn is `AccountTurn` and up to four `Submit`s after the adapter's answer, so
      anything may happen while it is in flight. */
  datatype Op =
    | OpInvite(caller: Id, expiresInMs: int, now: int)
    | OpRedeem(org: OrgId, inviteId: Id, addressOk: bool, now: int)
    | OpPropose(caller: Id, contract: Option<Contract>)
    | OpApproveContract(caller: Id, version: int)
    | OpSetPolicy(caller: Id, policy: Option<ParticipantPolicy>)
    | OpConnect(caller: Id, agent: Id, owned: bool)
    | OpStart(caller: Id, now: int)
    | OpPause(caller: Id)
    | OpResume(caller: Id)
    | OpCancel(caller: Id)
    | OpClose(caller: Id, now: int)
    | OpApproveCompletion(caller: Id, user: UserId, now: int)
    | OpVerify(caller: Id, evidenceId: Id, user: UserId)
    | OpSubmit(sender: Id, candidate: Option<Candidate>, now: int)
    | OpDecide(org: OrgId, user: UserId, approvalId: Id, approve: bool, now: int)
    | OpPauseForBudget(reason: string)
    | OpAccount(cost: real)
    | OpHalt
    | OpReport(detail: string)

  /** Calls that set a room up. */
  predicate SetsUp(op: Op) {
    op.OpInvite? || op.OpRedeem? || op.OpPropose? || op.OpApproveContract? || op.OpSetPolicy? || op.OpConnect?
  }

  /** Calls that agents, deciding humans and the platform make while a room works. */
  predicate Works(op: Op) {
    op.OpSubmit? || op.OpDecide? || op.OpPauseForBudget? || op.OpAccount? || op.OpHalt? || op.OpReport?
  }

  function Exec(env: Env, db: Db, op: Op): Db {
    match op
    case OpInvite(caller, expiresInMs, now) => CreateInvite(db, caller, expiresInMs, now).0
    case OpRedeem(org, inviteId, addressOk, now) => RedeemInvite(db, org, inviteId, addressOk, now).0
    case OpPropose(caller, contract) => ProposeContract(db, caller, contract).0
    case OpApproveContract(caller, version) => ApproveContract(db, caller, version).0
    case OpSetPolicy(caller, policy) => SetPolicy(db, caller, policy).0
    case OpConnect(caller, agent, owned) => ConnectAgent(db, caller, agent, owned).0
    case OpStart(caller, now) => StartRoom(db, caller, now).0
    case OpPause(caller) => ChangeState(db, caller, Paused).0
    case OpResume(caller) => ChangeState(db, caller, Active).0
    case OpCancel(caller) => ChangeState(db, caller, Canceled).0
    case OpClose(caller, now) => CloseRoom(db, caller, now).0
    case OpApproveCompletion(caller, user, now) => ApproveCompletion(db, caller, user, now).0
    case OpVerify(caller, evidenceId, user) => VerifyEvidence(db, caller, evidenceId, user).0
    case OpSubmit(sender, candidate, now) => Submit(env, db, sender, candidate, now).0
    case OpDecide(org, user, approvalId, approve, now) => DecideApproval(env, db, org, user, approvalId, approve, now).0
    case OpPauseForBudget(reason) => PauseForBudget(db, reason)
    case OpAccount(cost) => AccountTurn(db, cost)
    case OpHalt => HaltRoom(db)
    case OpReport(detail) => ReportAgentFailure(db, detail)
  }

  function Run(env: Env, db: Db, ops: seq<Op>): Db
    decreases |ops|
  {
    if ops == [] then db else Run(env, Exec(env, db, ops[0]), ops[1..])
  }
}
