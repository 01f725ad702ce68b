/** The few ways in which a submission or an approval decision can touch a room, with what is known in each case. */
module RoomEffects {
  import opened Wrappers
  import opened Policy
  import opened Events
  import opened RoomData
  import opened RoomSpec

  datatype Effect =
    | Nothing
    | Blocking(sender: Id, body: Body, rule: Rule, secret: bool)
    | Holding(holder: Participant, body: Body, now: int)
    | Releasing(sender: Id, body: Body, labels: Classification)
    | Settling(id: Id, status: Status)
    | Rejecting(id: Id, user: UserId, now: int)
    | Authorizing(id: Id, user: UserId, now: int)

  function Apply(env: Env, db: Db, e: Effect): Db
    requires e.Settling? || e.Rejecting? || e.Authorizing? ==> e.id in db.approvals
  {
    match e
    case Nothing => db
    case Blocking(sender, body, rule, secret) => Block(db, sender, body, rule, secret)
    case Holding(holder, body, now) => Hold(env, db, holder, body, now)
    case Releasing(sender, body, labels) => SideEffects(Released(db, sender, body, labels), sender, body)
    case Settling(id, status) => StoreStatus(db, id, status)
    case Rejecting(id, user, now) => Noted(Decided(db, id, Rejected, user, now), ActionRejected(id, ActionOf(db.approvals[id].body)))
    case Authorizing(id, user, now) => Authorize(env, db, id, user, now)
  }

  /** No hard-deny category, and nothing the latest contract forbids except "general". */
  predicate CleanLabels(cs: seq<ContractVersion>, cats: seq<Category>)
    requires cs != []
  {
    forall c :: c in cats ==> c !in HARD_DENY && (c != General ==> c !in Latest(cs).contract.forbiddenDataClasses)
  }

  /** What the scanner finds in the body by itself is no secret and nothing forbidden. */
  predicate CleanBody(env: Env, cs: seq<ContractVersion>, body: Body)
    requires cs != []
  {
    env.scan(body, None).secretFindings == [] && CleanLabels(cs, env.scan(body, None).classification.categories)
  }

  /** `request` is a peer's data request that names every field of the response. */
  predicate Answers(request: Event, sender: Id, body: Body)
    requires body.DataResponse?
  {
    && IsPeerRequest(request, body.requestId, sender)
    && forall e :: e in body.data ==> e.key in request.content.body.requestedFields
  }

  /** A data response answers some event of the stream so far. */
  predicate Linked(events: seq<Event>, sender: Id, body: Body) {
    body.DataResponse? ==> exists e :: e in events && Answers(e, sender, body)
  }

  /** What is known of a body that reaches the stream or the approval queue. */
  predicate Vetted(env: Env, db: Db, sender: Id, body: Body) {
    && Find(db.participants, sender).Some? && Routes(db.room.state) && db.contracts != []
    && CleanBody(env, db.contracts, body) && Linked(db.events, sender, body)
  }

  ghost predicate EffectOk(env: Env, db: Db, e: Effect) {
    match e
    case Holding(holder, body, _) => holder in db.participants && Vetted(env, db, holder.id, body)
    case Releasing(sender, body, labels) => Vetted(env, db, sender, body) && CleanLabels(db.contracts, labels.categories)
    case Settling(id, status) => id in db.approvals && db.approvals[id].status == Pending && (status == Expired || status == Invalidated)
    case Rejecting(id, _, _) => id in db.approvals && db.approvals[id].status == Pending
    case Authorizing(id, _, _) => id in db.approvals && db.approvals[id].status == Pending
    case _ => true
  }

  lemma RestrictedIsLinked(db: Db, sender: Id, body: Body)
    requires Restricted(db, sender, body).Some?
    ensures Linked(db.events, sender, Restricted(db, sender, body).value)
  {
    if body.DataResponse? {
      var request := FindRequest(db.events, body.requestId, sender).value;
      assert Answers(request, sender, Restricted(db, sender, body).value);
    }
  }

  /** A body the policy did not deny is clean, also by the labels it would get without a declaration. */
  lemma NotDeniedIsVetted(env: Env, db: Db, sender: Participant, body: Body, declared: Option<Classification>)
    requires env.Valid() && db.contracts != [] && sender.policy.Some?
    requires !Decide(PolicyInput(db, body, env.scan(body, declared)), sender.policy.value, Latest(db.contracts).contract).Deny?
    ensures Routes(db.room.state) && CleanBody(env, db.contracts, body)
    ensures CleanLabels(db.contracts, env.scan(body, declared).classification.categories)
  {
    var contract := Latest(db.contracts).contract;
    NotDeniedIsClean(PolicyInput(db, body, env.scan(body, declared)), sender.policy.value, contract);
    if declared.Some? { assert env.Tightens(body, declared.value); }
  }

  /** What the pipeline does with a vetted or refused body. */
  lemma JudgeEffect(env: Env, db: Db, sender: Participant, body: Body, declared: Option<Classification>, now: int) returns (e: Effect)
    requires env.Valid() && Find(db.participants, sender.id) == Some(sender) && Linked(db.events, sender.id, body)
    ensures e.Nothing? || e.Blocking? || e.Holding? || e.Releasing?
    ensures EffectOk(env, db, e) && Judge(env, db, sender, body, declared, now).0 == Apply(env, db, e)
  {
    var dlp := env.scan(body, declared);
    if sender.policy.None? || db.contracts == [] { return Nothing; }
    var d := Decide(PolicyInput(db, body, dlp), sender.policy.value, Latest(db.contracts).contract);
    match d {
      case Deny(rule) => return Blocking(sender.id, body, rule, |dlp.secretFindings| > 0);
      case RequireApproval(_) =>
        NotDeniedIsVetted(env, db, sender, body, declared);
        return Holding(sender, body, now);
      case Allow =>
        NotDeniedIsVetted(env, db, sender, body, declared);
        return Releasing(sender.id, body, dlp.classification);
    }
  }

  lemma SubmitEffect(env: Env, db: Db, sender: Id, candidate: Option<Candidate>, now: int) returns (e: Effect)
    requires env.Valid()
    ensures e.Nothing? || e.Blocking? || e.Holding? || e.Releasing?
    ensures EffectOk(env, db, e) && Submit(env, db, sender, candidate, now).0 == Apply(env, db, e)
  {
    var p := Find(db.participants, sender);
    if p.None? || candidate.None? || Restricted(db, sender, candidate.value.body).None? { return Nothing; }
    RestrictedIsLinked(db, sender, candidate.value.body);
    e := JudgeEffect(env, db, p.value, Restricted(db, sender, candidate.value.body).value, candidate.value.declared, now);
  }

  lemma DecideEffect(env: Env, db: Db, org: OrgId, user: UserId, id: Id, approve: bool, now: int) returns (e: Effect)
    ensures e.Nothing? || e.Settling? || e.Rejecting? || e.Authorizing?
    ensures EffectOk(env, db, e) && DecideApproval(env, db, org, user, id, approve, now).0 == Apply(env, db, e)
  {
    if id !in db.approvals { return Nothing; }
    var a := db.approvals[id];
    if org != a.approverOrg || a.status != Pending { return Nothing; }
    if a.expiresAt < now { return Settling(id, Expired); }
    if Find(db.participants, a.requestedBy).None? { return Nothing; }
    if !approve { return Rejecting(id, user, now); }
    if env.hash(a.body) != a.parametersHash || |env.scan(a.body, None).secretFindings| > 0 { return Settling(id, Invalidated); }
    return Authorizing(id, user, now);
  }
}
