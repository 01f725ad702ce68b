/** Classification labels (packages/shared/src/classification.ts), room states and their legal edges
    (packages/shared/src/room.ts), and the policy decision point (packages/policy/src/index.ts). */
module Policy {
  import opened Wrappers

  // ---------------------------------------------------------------------------------------------
  // Labels
  // ---------------------------------------------------------------------------------------------

  datatype Sensitivity = PublicLevel | InternalLevel | ConfidentialLevel | RestrictedLevel | SecretLevel

  function Rank(s: Sensitivity): nat {
    match s
    case PublicLevel => 0
    case InternalLevel => 1
    case ConfidentialLevel => 2
    case RestrictedLevel => 3
    case SecretLevel => 4
  }

  datatype Category =
    | Credential | PrivateKey | ApiKey | AuthenticationToken
    | Pii | Phi | Financial | SourceCode | NetworkConfiguration | InfrastructureMetadata
    | CustomerData | EmployeeData | BusinessStrategy | Architecture | ResourceInventory
    | PerformanceMetric | NetworkRequirements | General

  /** Categories that never leave an organization, whatever is configured. */
  const HARD_DENY: set<Category> := {Credential, PrivateKey, ApiKey, AuthenticationToken}

  datatype Classification = Classification(sensitivity: Sensitivity, categories: seq<Category>)

  // ---------------------------------------------------------------------------------------------
  // Room states
  // ---------------------------------------------------------------------------------------------

  datatype RoomState =
    | Draft | Invited | Negotiating | Ready | Active | Paused
    | CompletionProposed | Completed | Closed | Canceled | Quarantined

  /** The legal edges. */
  predicate CanTransition(from: RoomState, to: RoomState) {
    match from
    case Draft => to.Invited? || to.Canceled?
    case Invited => to.Negotiating? || to.Canceled?
    case Negotiating => to.Ready? || to.Canceled? || to.Quarantined?
    case Ready => to.Active? || to.Canceled? || to.Quarantined?
    case Active => to.Paused? || to.CompletionProposed? || to.Canceled? || to.Quarantined?
    case Paused => to.Active? || to.Canceled? || to.Quarantined?
    case CompletionProposed => to.Active? || to.Completed? || to.Canceled? || to.Quarantined?
    case Completed => to.Closed?
    case Closed => false
    case Canceled => to.Closed?
    case Quarantined => to.Paused? || to.Canceled? || to.Closed?
  }

  /** States in which events are routed. */
  predicate Routes(s: RoomState) { s.Active? || s.CompletionProposed? }

  // ---------------------------------------------------------------------------------------------
  // The decision's inputs
  // ---------------------------------------------------------------------------------------------

  datatype EventType =
    | MessageType | ClarificationRequestType | ClarificationResponseType | DataRequestType | DataResponseType
    | ActionProposalType | ActionResultType | EvidenceSubmissionType | CompletionProposalType

  datatype Disclosure = AllowClass | DenyClass | ApproveClass

  datatype ParticipantPolicy = ParticipantPolicy(
    allowedEventTypes: seq<EventType>,
    dataClassRules: map<Category, Disclosure>,
    maxAutoSensitivity: Sensitivity,
    autonomousActions: seq<string>,
    approvalRequiredActions: seq<string>)

  datatype Criterion = Criterion(id: string, evidenceRequired: bool)

  datatype Contract = Contract(
    permittedDataClasses: seq<Category>,
    forbiddenDataClasses: seq<Category>,
    permittedActions: seq<string>,
    approvalRequiredActions: seq<string>,
    completionCriteria: seq<Criterion>)

  /** The part of the PDP's input document that decisions read. */
  datatype Input = Input(
    roomState: RoomState,
    eventType: EventType,
    sensitivity: Sensitivity,
    categories: seq<Category>,
    action: Option<string>,
    secretFindings: nat)
  {
    function ActionName(): string { if action.Some? then action.value else "" }

    /** The pipeline names the action of every action proposal. */
    predicate NamesAction() { eventType == ActionProposalType ==> action.Some? }
  }

  datatype Rule =
    | SecretDisclosure | HardDenyCategory | RoomNotActive
    | ForbiddenDataClass | ContractApprovalAction | ActionNotPermitted
    | EventTypeNotAllowed | ParticipantApprovalAction | ActionNotAutonomous
    | DataClassDenied | DataClassApproval | SensitivityCeiling | DataClassOutOfScope

  datatype Decision = Allow | Deny(rule: Rule) | RequireApproval(rule: Rule)

  // ---------------------------------------------------------------------------------------------
  // The decision
  // ---------------------------------------------------------------------------------------------

  predicate HardDenied(cats: seq<Category>) { exists c :: c in cats && c in HARD_DENY }

  predicate Overlaps(cats: seq<Category>, classes: seq<Category>) { exists c :: c in classes && c in cats }

  /** The participant's rule for a category; a missing rule denies. */
  function RuleFor(policy: ParticipantPolicy, c: Category): Disclosure {
    if c == General then AllowClass
    else if c in policy.dataClassRules then policy.dataClassRules[c] else DenyClass
  }

  predicate SomeClass(policy: ParticipantPolicy, cats: seq<Category>, d: Disclosure) {
    exists c :: c in cats && RuleFor(policy, c) == d
  }

  predicate InScope(contract: Contract, cats: seq<Category>) {
    forall c :: c in cats ==> c == General || c in contract.permittedDataClasses
  }

  predicate Discloses(t: EventType) { t == DataResponseType || t == EvidenceSubmissionType }

  /** What the contract says about a proposed action, if anything. */
  function ContractOnAction(input: Input, contract: Contract): Decision {
    if input.eventType != ActionProposalType then Allow
    else if input.ActionName() in contract.approvalRequiredActions then RequireApproval(ContractApprovalAction)
    else if input.ActionName() !in contract.permittedActions then Deny(ActionNotPermitted)
    else Allow
  }

  function ParticipantOnAction(input: Input, policy: ParticipantPolicy): Decision {
    if input.eventType != ActionProposalType then Allow
    else if input.ActionName() in policy.approvalRequiredActions then RequireApproval(ParticipantApprovalAction)
    else if input.ActionName() !in policy.autonomousActions then RequireApproval(ActionNotAutonomous)
    else Allow
  }

  /** The first rule that has something to say wins. */
  function Decide(input: Input, policy: ParticipantPolicy, contract: Contract): Decision {
    if input.secretFindings > 0 then Deny(SecretDisclosure)
    else if HardDenied(input.categories) then Deny(HardDenyCategory)
    else if !Routes(input.roomState) then Deny(RoomNotActive)
    else if Overlaps(input.categories, contract.forbiddenDataClasses) then Deny(ForbiddenDataClass)
    else if ContractOnAction(input, contract) != Allow then ContractOnAction(input, contract)
    else if input.eventType !in policy.allowedEventTypes then Deny(EventTypeNotAllowed)
    else if ParticipantOnAction(input, policy) != Allow then ParticipantOnAction(input, policy)
    else if SomeClass(policy, input.categories, DenyClass) then Deny(DataClassDenied)
    else if SomeClass(policy, input.categories, ApproveClass) then RequireApproval(DataClassApproval)
    else if Rank(input.sensitivity) > Rank(policy.maxAutoSensitivity) then RequireApproval(SensitivityCeiling)
    else if Discloses(input.eventType) && !InScope(contract, input.categories) then Deny(DataClassOutOfScope)
    else Allow
  }

  method FirstHardDenied(cats: seq<Category>) returns (hit: bool)
    ensures hit == HardDenied(cats)
  {
    for i := 0 to |cats|
      invariant forall j :: 0 <= j < i ==> cats[j] !in HARD_DENY
    {
      if cats[i] in HARD_DENY { return true; }
    }
    return false;
  }

  /** `BuiltinPolicyEngine.evaluate`: early returns, and one loop that remembers a category to approve. */
  method Evaluate(input: Input, policy: ParticipantPolicy, contract: Contract) returns (d: Decision)
    ensures d == Decide(input, policy, contract)
  {
    if input.secretFindings > 0 { return Deny(SecretDisclosure); }
    var hardDenied := FirstHardDenied(input.categories);
    if hardDenied { return Deny(HardDenyCategory); }
    if input.roomState != Active && input.roomState != CompletionProposed { return Deny(RoomNotActive); }
    if exists c :: c in contract.forbiddenDataClasses && c in input.categories { return Deny(ForbiddenDataClass); }
    var action := input.ActionName();
    if input.eventType == ActionProposalType {
      if action in contract.approvalRequiredActions { return RequireApproval(ContractApprovalAction); }
      if action !in contract.permittedActions { return Deny(ActionNotPermitted); }
    }
    if input.eventType !in policy.allowedEventTypes { return Deny(EventTypeNotAllowed); }
    if input.eventType == ActionProposalType {
      if action in policy.approvalRequiredActions { return RequireApproval(ParticipantApprovalAction); }
      if action !in policy.autonomousActions { return RequireApproval(ActionNotAutonomous); }
    }
    var needsApproval := None;
    for i := 0 to |input.categories|
      invariant forall j :: 0 <= j < i ==> RuleFor(policy, input.categories[j]) != DenyClass
      invariant needsApproval.Some? <==> exists j :: 0 <= j < i && RuleFor(policy, input.categories[j]) == ApproveClass
    {
      var c := input.categories[i];
      if c == General { continue; }
      var rule := if c in policy.dataClassRules then Some(policy.dataClassRules[c]) else None;
      if rule == Some(AllowClass) { continue; }
      if rule == Some(ApproveClass) {
        needsApproval := Some(c);
        continue;
      }
      assert RuleFor(policy, c) == DenyClass;
      return Deny(DataClassDenied);
    }
    if needsApproval.Some? { return RequireApproval(DataClassApproval); }
    if Rank(input.sensitivity) > Rank(policy.maxAutoSensitivity) { return RequireApproval(SensitivityCeiling); }
    if Discloses(input.eventType) {
      if !(forall c :: c in input.categories ==> c == General || c in contract.permittedDataClasses) {
        return Deny(DataClassOutOfScope);
      }
    }
    return Allow;
  }

  // ---------------------------------------------------------------------------------------------
  // What a decision guarantees
  // ---------------------------------------------------------------------------------------------

  /** Whatever is allowed, or held for a human, passed every hard floor and the contract's prohibitions. */
  lemma NotDeniedIsClean(input: Input, policy: ParticipantPolicy, contract: Contract)
    requires !Decide(input, policy, contract).Deny?
    ensures input.secretFindings == 0 && Routes(input.roomState)
    ensures forall c :: c in input.categories ==> c !in HARD_DENY && c !in contract.forbiddenDataClasses
  {
    forall c | c in input.categories ensures c !in HARD_DENY && c !in contract.forbiddenDataClasses {
      assert !HardDenied(input.categories) && !Overlaps(input.categories, contract.forbiddenDataClasses);
    }
  }

  /** Fewer categories (or just "general") and a lower sensitivity never turn an allowed event away, unless the
      contract forbids "general" itself. */
  lemma AllowIsMonotone(high: Input, low: Input, policy: ParticipantPolicy, contract: Contract)
    requires Decide(high, policy, contract) == Allow
    requires low == high.(sensitivity := low.sensitivity, categories := low.categories)
    requires Rank(low.sensitivity) <= Rank(high.sensitivity)
    requires forall c :: c in low.categories ==> c in high.categories || c == General
    ensures Decide(low, policy, contract) == Allow <==> !Overlaps(low.categories, contract.forbiddenDataClasses)
    ensures General !in contract.forbiddenDataClasses ==> Decide(low, policy, contract) == Allow
  {
    NotDeniedIsClean(high, policy, contract);
    assert !HardDenied(low.categories);
    assert !SomeClass(policy, high.categories, DenyClass) && !SomeClass(policy, high.categories, ApproveClass);
    assert forall c :: c in high.categories ==> RuleFor(policy, c) == AllowClass;
    assert !SomeClass(policy, low.categories, DenyClass) && !SomeClass(policy, low.categories, ApproveClass);
  }
}
