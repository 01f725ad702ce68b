/** Which of the three verdicts the policy decision point gives, in the terms of its inputs
    (packages/policy/src/index.ts). */
module Verdicts {
  import opened Wrappers
  import opened Policy
  import Rego

  predicate Proposes(input: Input, actions: seq<string>) { input.eventType == ActionProposalType && input.ActionName() in actions }

  /** No secret, none of the four categories that never leave, a room that routes events, nothing forbidden. */
  predicate PassesFloors(input: Input, contract: Contract) {
    && input.secretFindings == 0
    && (forall c :: c in input.categories ==> c !in {Credential, PrivateKey, ApiKey, AuthenticationToken})
    && (input.roomState == Active || input.roomState == CompletionProposed)
    && forall c :: c in input.categories ==> c !in contract.forbiddenDataClasses
  }

  /** The participant's own rule for the category, if there is one. */
  predicate HasRule(policy: ParticipantPolicy, c: Category, d: Disclosure) {
    c != General && c in policy.dataClassRules && policy.dataClassRules[c] == d
  }

  /** Sensitivities ascend from public to secret. */
  lemma LevelsAscend(a: Sensitivity, b: Sensitivity)
    ensures Rank(PublicLevel) < Rank(InternalLevel) < Rank(ConfidentialLevel) < Rank(RestrictedLevel) < Rank(SecretLevel)
    ensures Rank(a) == Rank(b) ==> a == b
  {
  }

  /** What the participant's policy wants a human to see: an action of its list or outside its autonomous ones, or else,
      with no category denied, a category to approve or a sensitivity above its ceiling. */
  predicate PolicyHolds(input: Input, policy: ParticipantPolicy) {
    || (input.eventType == ActionProposalType
        && (input.ActionName() in policy.approvalRequiredActions || input.ActionName() !in policy.autonomousActions))
    || ((forall c :: c in input.categories ==> c == General || HasRule(policy, c, AllowClass) || HasRule(policy, c, ApproveClass))
        && ((exists c :: c in input.categories && HasRule(policy, c, ApproveClass))
            || Rank(input.sensitivity) > Rank(policy.maxAutoSensitivity)))
  }

  /** Held for a human: past the floors, an action that the contract wants approved, whatever the participant's policy says;
      or else something the contract lets through, of a type the participant may send, that its policy wants a human to see. */
  predicate MustBeHeld(input: Input, policy: ParticipantPolicy, contract: Contract) {
    && PassesFloors(input, contract)
    && (|| Proposes(input, contract.approvalRequiredActions)
        || ((input.eventType == ActionProposalType ==> input.ActionName() in contract.permittedActions)
            && input.eventType in policy.allowedEventTypes && PolicyHolds(input, policy)))
  }

  /** The mirror allows it, and neither of the rules that the mirror lacks stands against it. */
  predicate MayPass(input: Input, policy: ParticipantPolicy, contract: Contract) {
    Rego.Fires(Rego.AllowBody, Rego.Named(input), policy, contract) && !Rego.OutsideMirror(input, policy, contract)
  }

  lemma ClassesAre(input: Input, policy: ParticipantPolicy)
    ensures SomeClass(policy, input.categories, ApproveClass) <==> exists c :: c in input.categories && HasRule(policy, c, ApproveClass)
    ensures !SomeClass(policy, input.categories, DenyClass) <==>
      forall c :: c in input.categories ==> c == General || HasRule(policy, c, AllowClass) || HasRule(policy, c, ApproveClass)
  {
    forall c ensures RuleFor(policy, c) == ApproveClass <==> HasRule(policy, c, ApproveClass) {}
    forall c ensures RuleFor(policy, c) == DenyClass <==> !(c == General || HasRule(policy, c, AllowClass) || HasRule(policy, c, ApproveClass)) {}
  }

  lemma FloorsAre(input: Input, contract: Contract)
    ensures PassesFloors(input, contract) <==>
      input.secretFindings == 0 && !HardDenied(input.categories) && Routes(input.roomState)
      && !Overlaps(input.categories, contract.forbiddenDataClasses)
  {
  }

  lemma HeldIff(input: Input, policy: ParticipantPolicy, contract: Contract)
    ensures Decide(input, policy, contract).RequireApproval? <==> MustBeHeld(input, policy, contract)
  {
    FloorsAre(input, contract);
    ClassesAre(input, policy);
  }

  /** Every input is allowed, held or denied: allowed exactly if it may pass, held exactly if it must be, and denied exactly if
      neither. */
  lemma VerdictIs(input: Input, policy: ParticipantPolicy, contract: Contract)
    ensures Decide(input, policy, contract) == Allow <==> MayPass(input, policy, contract)
    ensures Decide(input, policy, contract).RequireApproval? <==> MustBeHeld(input, policy, contract)
    ensures Decide(input, policy, contract).Deny? <==> !MayPass(input, policy, contract) && !MustBeHeld(input, policy, contract)
  {
    Rego.AllowCoincides(input, policy, contract);
    HeldIff(input, policy, contract);
  }

  /** A denial names a rule that really stands against the input; the approval rules are never named by one. */
  lemma DenialNamesItsReason(input: Input, policy: ParticipantPolicy, contract: Contract)
    requires Decide(input, policy, contract).Deny?
    ensures match Decide(input, policy, contract).rule
      case SecretDisclosure => input.secretFindings > 0
      case HardDenyCategory => exists c :: c in input.categories && c in {Credential, PrivateKey, ApiKey, AuthenticationToken}
      case RoomNotActive => input.roomState != Active && input.roomState != CompletionProposed
      case ForbiddenDataClass => exists c :: c in input.categories && c in contract.forbiddenDataClasses
      case ActionNotPermitted => input.eventType == ActionProposalType && input.ActionName() !in contract.permittedActions
      case EventTypeNotAllowed => input.eventType !in policy.allowedEventTypes
      case DataClassDenied => exists c :: c in input.categories && c != General && !HasRule(policy, c, AllowClass) && !HasRule(policy, c, ApproveClass)
      case DataClassOutOfScope => exists c :: c in input.categories && c != General && c !in contract.permittedDataClasses
      case _ => false
  {
    FloorsAre(input, contract);
    ClassesAre(input, policy);
  }
}
