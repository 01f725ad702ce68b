/** The event pipeline as the program runs it: filter, classify, decide, then block, hold or release
    (packages/core/src/pipeline.ts). */
module Pipeline {
  import opened Wrappers
  import opened Json
  import opened Policy
  import opened Events
  import opened RoomData
  import opened RoomStore
  import opened RoomSpec
  import Rooms

  method FindPeerRequest(events: seq<Event>, requestId: Id, sender: Id) returns (r: Option<Event>)
    ensures r == FindRequest(events, requestId, sender)
  {
    for i := 0 to |events|
      invariant FindRequest(events, requestId, sender) == FindRequest(events[i..], requestId, sender)
    {
      if IsPeerRequest(events[i], requestId, sender) { return Some(events[i]); }
      assert events[i..][1..] == events[i + 1..];
    }
    return None;
  }

  method FilterFields(data: seq<Entry<Scalar>>, fields: seq<string>) returns (filtered: seq<Entry<Scalar>>)
    ensures filtered == Filtered(data, fields)
  {
    filtered := [];
    for i := 0 to |data|
      invariant filtered + Filtered(data[i..], fields) == Filtered(data, fields)
    {
      assert data[i..][1..] == data[i + 1..];
      if data[i].key in fields { filtered := filtered + [data[i]]; }
    }
  }

  /** Structural filtering: a data response may only carry what the peer asked for. */
  method Restrict(store: Store, sender: Id, body: Body) returns (r: Option<Body>)
    ensures r == Restricted(store.View(), sender, body)
  {
    if !body.DataResponse? { return Some(body); }
    var request := FindPeerRequest(store.events, body.requestId, sender);
    if request.None? { return None; }
    var filtered := FilterFields(body.data, request.value.content.body.requestedFields);
    return Some(body.(data := filtered));
  }

  method SubmitCandidateEvent(env: Env, store: Store, senderId: Id, candidate: Option<Candidate>, now: int) returns (r: Submission)
    modifies store
    ensures (store.View(), r) == Submit(env, old(store.View()), senderId, candidate, now)
  {
    var sender := store.GetParticipant(senderId);
    if sender.None? { return Unknown; }
    if candidate.None? { return Dropped(SchemaInvalid); }
    var body := Restrict(store, sender.value.id, candidate.value.body);
    if body.None? { return Dropped(NoPeerRequest); }
    r := ClassifyAndDecide(env, store, sender.value, body.value, candidate.value.declared, now);
  }

  method ClassifyAndDecide(env: Env, store: Store, sender: Participant, body: Body, declared: Option<Classification>, now: int)
    returns (r: Submission)
    modifies store
    ensures (store.View(), r) == Judge(env, old(store.View()), sender, body, declared, now)
  {
    var dlp := env.scan(body, declared);
    if sender.policy.None? { return Dropped(NoPolicy); }
    var latest := store.LatestContractVersion();
    if latest.None? { return Dropped(NoContract); }
    var input := Input(
      store.room.state, TypeOf(body), dlp.classification.sensitivity, dlp.classification.categories, ActionOf(body), |dlp.secretFindings|);
    var decision := Evaluate(input, sender.policy.value, latest.value.contract);
    match decision {
      case Deny(rule) =>
        HandleDenied(store, sender, body, rule, |dlp.secretFindings| > 0);
        return Blocked(rule);
      case RequireApproval(_) =>
        var id := HandleRequiresApproval(env, store, sender, body, now);
        return Held(id);
      case Allow =>
        var e := PersistAllowedEvent(store, sender.id, body, dlp.classification);
        ApplySideEffects(store, sender.id, body);
        return Allowed(e.id);
    }
  }

  method CountSecretBlocks(events: seq<Event>, sender: Id) returns (attempts: nat)
    ensures attempts == SecretBlocks(events, sender)
  {
    attempts := 0;
    for i := 0 to |events|
      invariant attempts == SecretBlocks(events[..i], sender)
    {
      assert events[..i + 1][..i] == events[..i];
      if IsSecretBlock(events[i], sender) { attempts := attempts + 1; }
    }
    assert events[..|events|] == events;
  }

  method HandleDenied(store: Store, sender: Participant, body: Body, rule: Rule, wasSecret: bool)
    modifies store
    ensures store.View() == Block(old(store.View()), sender.id, body, rule, wasSecret)
  {
    store.Note(PolicyBlock(TypeOf(body), sender.id, rule));
    if wasSecret {
      var attempts := CountSecretBlocks(store.events, sender.id);
      if attempts >= 3 { Rooms.QuarantineRoom(store); }
    }
  }

  method HandleRequiresApproval(env: Env, store: Store, sender: Participant, body: Body, now: int) returns (id: Id)
    modifies store
    ensures store.View() == Hold(env, old(store.View()), sender, body, now) && id == old(store.nextId)
  {
    id := store.CreateApproval(
      Approval(sender.id, body, env.hash(body), Pending, None, None, sender.org, now + 24 * 3_600_000, None));
    store.Note(ApprovalRequested(id, sender.id, TypeOf(body), ActionOf(body)));
  }

  method PersistAllowedEvent(store: Store, sender: Id, body: Body, labels: Classification) returns (e: Event)
    modifies store
    ensures store.View() == Released(old(store.View()), sender, body, labels) && e.id == old(store.nextId)
  {
    var recipient := store.PeerOf(sender);
    e := store.AppendRoomEvent(Some(sender), recipient, FromAgent(body), labels);
  }

  method ApplySideEffects(store: Store, sender: Id, body: Body)
    modifies store
    ensures store.View() == SideEffects(old(store.View()), sender, body)
  {
    match body {
      case EvidenceSubmission(criterionId, _, _, _) =>
        var latest := store.LatestContractVersion();
        if latest.None? || !(exists c :: c in latest.value.contract.completionCriteria && c.id == criterionId) { return; }
        store.CreateEvidence(Evidence(criterionId, sender, Claimed, None));
        if !(criterionId in store.criteria && store.criteria[criterionId] == Verified) {
          store.UpsertCriterionStatus(criterionId, EvidenceSubmitted);
        }
      case CompletionProposal(_) =>
        var satisfied, _ := Rooms.CompletionStatus(store);
        if !satisfied {
          store.Note(CompletionRejected);
          return;
        }
        if store.room.state == Active { store.UpdateRoom(store.room.(state := CompletionProposed)); }
      case _ =>
    }
  }
}
