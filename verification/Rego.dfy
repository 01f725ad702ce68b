/** The declarative mirror of the decision, packages/policy/src/rego/room_policy.rego, and how it compares. */
module Rego {
  import opened Wrappers
  import opened Policy

  /** The rule bodies that define `decision`. */
  datatype Body = SecretBody | HardDenyBody | RoomBody | AllowBody

  predicate EventTypeAllowed(input: Input, policy: ParticipantPolicy) { input.eventType in policy.allowedEventTypes }

  predicate ContractForbidden(input: Input, contract: Contract) {
    exists c :: c in input.categories && c in contract.forbiddenDataClasses
  }

  /** An undefined action is in no list. */
  predicate ActionIn(input: Input, actions: seq<string>) { input.action.Some? && input.action.value in actions }

  predicate ActionNeedsApproval(input: Input, contract: Contract) {
    input.eventType == ActionProposalType && ActionIn(input, contract.approvalRequiredActions)
  }

  predicate ActionPermitted(input: Input, policy: ParticipantPolicy, contract: Contract) {
    || input.eventType != ActionProposalType
    || (ActionIn(input, contract.permittedActions) && ActionIn(input, policy.autonomousActions))
  }

  predicate DataClassOk(policy: ParticipantPolicy, c: Category) {
    c == General || (c in policy.dataClassRules && policy.dataClassRules[c] == AllowClass)
  }

  predicate DataClassesAllowed(input: Input, policy: ParticipantPolicy) {
    forall c :: c in input.categories ==> DataClassOk(policy, c)
  }

  predicate SensitivityOk(input: Input, policy: ParticipantPolicy) {
    Rank(input.sensitivity) <= Rank(policy.maxAutoSensitivity)
  }

  /** Whether a body's conditions all hold. */
  predicate Fires(body: Body, input: Input, policy: ParticipantPolicy, contract: Contract) {
    match body
    case SecretBody => input.secretFindings > 0
    case HardDenyBody => input.secretFindings == 0 && HardDenied(input.categories)
    case RoomBody => input.secretFindings == 0 && !HardDenied(input.categories) && input.roomState !in {Active, CompletionProposed}
    case AllowBody =>
      && input.secretFindings == 0
      && !HardDenied(input.categories)
      && input.roomState in {Active, CompletionProposed}
      && EventTypeAllowed(input, policy)
      && !ContractForbidden(input, contract)
      && !ActionNeedsApproval(input, contract)
      && ActionPermitted(input, policy, contract)
      && DataClassesAllowed(input, policy)
      && SensitivityOk(input, policy)
  }

  /** The module never conflicts: at most one body gives a value. */
  lemma BodiesExclusive(a: Body, b: Body, input: Input, policy: ParticipantPolicy, contract: Contract)
    requires Fires(a, input, policy, contract) && Fires(b, input, policy, contract)
    ensures a == b
  {
  }

  /** The three platform floors coincide, rule for rule. */
  lemma FloorsCoincide(input: Input, policy: ParticipantPolicy, contract: Contract)
    ensures Decide(input, policy, contract) == Deny(SecretDisclosure) <==> Fires(SecretBody, input, policy, contract)
    ensures Decide(input, policy, contract) == Deny(HardDenyCategory) <==> Fires(HardDenyBody, input, policy, contract)
    ensures Decide(input, policy, contract) == Deny(RoomNotActive) <==> Fires(RoomBody, input, policy, contract)
  {
  }

  /** Where the mirror is looser: the participant's own approval list, and the contract's scope for disclosures. */
  predicate OutsideMirror(input: Input, policy: ParticipantPolicy, contract: Contract) {
    || (input.eventType == ActionProposalType && input.ActionName() in policy.approvalRequiredActions)
    || (Discloses(input.eventType) && !InScope(contract, input.categories))
  }

  /** The engine reads a missing action as the empty name; the mirror finds it in no list. */
  function Named(input: Input): Input {
    if input.eventType == ActionProposalType then input.(action := Some(input.ActionName())) else input
  }

  /** The engine allows exactly what the mirror allows and those two extra rules let through, for every input that names
      the action of a proposal, as the pipeline always does, and for any other as if it named the empty one. */
  lemma AllowCoincides(input: Input, policy: ParticipantPolicy, contract: Contract)
    ensures Decide(input, policy, contract) == Allow
      <==> Fires(AllowBody, Named(input), policy, contract) && !OutsideMirror(input, policy, contract)
    ensures input.NamesAction() ==> Named(input) == input
  {
    assert Overlaps(input.categories, contract.forbiddenDataClasses) == ContractForbidden(Named(input), contract);
    ClassesCoincide(Named(input), policy);
  }

  lemma ClassesCoincide(input: Input, policy: ParticipantPolicy)
    ensures DataClassesAllowed(input, policy)
      <==> !SomeClass(policy, input.categories, DenyClass) && !SomeClass(policy, input.categories, ApproveClass)
  {
    forall c ensures DataClassOk(policy, c) <==> RuleFor(policy, c) == AllowClass {}
  }

  /** The mirror really is looser: an action on the participant's own approval list passes it. */
  lemma MirrorAllowsMore()
    ensures exists input: Input, policy: ParticipantPolicy, contract: Contract ::
      input.NamesAction() && Fires(AllowBody, input, policy, contract) && Decide(input, policy, contract) != Allow
  {
    var input := Input(Active, ActionProposalType, InternalLevel, [General], Some("deploy"), 0);
    var policy := ParticipantPolicy([ActionProposalType], map[], ConfidentialLevel, ["deploy"], ["deploy"]);
    var contract := Contract([], [], ["deploy"], [], []);
    assert Fires(AllowBody, input, policy, contract);
    assert ParticipantOnAction(input, policy) == RequireApproval(ParticipantApprovalAction);
  }

  /** So does a disclosure outside the contract's scope. */
  lemma MirrorIgnoresScope()
    ensures exists input: Input, policy: ParticipantPolicy, contract: Contract ::
      && input.eventType == DataResponseType && Fires(AllowBody, input, policy, contract)
      && Decide(input, policy, contract) == Deny(DataClassOutOfScope)
  {
    var input := Input(Active, DataResponseType, InternalLevel, [Architecture], None, 0);
    var policy := ParticipantPolicy([DataResponseType], map[Architecture := AllowClass], ConfidentialLevel, [], []);
    var contract := Contract([], [], [], [], []);
    assert Fires(AllowBody, input, policy, contract);
    assert RuleFor(policy, Architecture) == AllowClass;
    assert !SomeClass(policy, input.categories, DenyClass) && !SomeClass(policy, input.categories, ApproveClass);
    assert Architecture in input.categories && !InScope(contract, input.categories);
  }
}
