/** Event bodies (packages/shared/src/events.ts): what agents may say, what the platform adds, and their JSON form. */
module Events {
  import opened Wrappers
  import opened Json
  import opened Policy

  /** Ids are opaque, and new ones are drawn from a counter. */
  type Id = nat

  datatype Scalar = SText(text: string) | SNumber(n: int) | SBool(b: bool) | SNull

  /** What an agent may emit; nothing else enters the pipeline. */
  datatype Body =
    | Message(text: string)
    | ClarificationRequest(question: string)
    | ClarificationResponse(requestId: Id, answer: string)
    | DataRequest(purpose: string, requestedFields: seq<string>)
    | DataResponse(requestId: Id, data: seq<Entry<Scalar>>)
    | ActionProposal(action: string, parameters: seq<Entry<Scalar>>, reason: string)
    | ActionResult(actionEventId: Id, succeeded: bool, summary: string)
    | EvidenceSubmission(criterionId: string, evidenceType: string, description: string, reference: Option<string>)
    | CompletionProposal(summary: string)

  function TypeOf(b: Body): EventType {
    match b
    case Message(_) => MessageType
    case ClarificationRequest(_) => ClarificationRequestType
    case ClarificationResponse(_, _) => ClarificationResponseType
    case DataRequest(_, _) => DataRequestType
    case DataResponse(_, _) => DataResponseType
    case ActionProposal(_, _, _) => ActionProposalType
    case ActionResult(_, _, _) => ActionResultType
    case EvidenceSubmission(_, _, _, _) => EvidenceSubmissionType
    case CompletionProposal(_) => CompletionProposalType
  }

  function ActionOf(b: Body): Option<string> {
    if b.ActionProposal? then Some(b.action) else None
  }

  /** What the platform itself writes into the stream. */
  datatype Notice =
    | PolicyBlock(blockedType: EventType, blockedParticipant: Id, rule: Rule)
    | ApprovalRequested(approvalId: Id, requestedBy: Id, eventType: EventType, action: Option<string>)
    | ActionAuthorized(approvalId: Id, action: Option<string>, releasedEventId: Id)
    | ActionRejected(approvalId: Id, action: Option<string>)
    | CompletionRejected
    | RoomPaused(reason: string)
    | AgentFailure(detail: string)

  // ---------------------------------------------------------------------------------------------
  // JSON form
  // ---------------------------------------------------------------------------------------------

  function ScalarJson(s: Scalar): Value {
    match s
    case SText(t) => Str(t)
    case SNumber(n) => Num(n)
    case SBool(b) => Bool(b)
    case SNull => Null
  }

  function DataJson(data: seq<Entry<Scalar>>): seq<Entry<Value>> {
    if data == [] then [] else [Entry(data[0].key, ScalarJson(data[0].val))] + DataJson(data[1..])
  }

  function Texts(ts: seq<string>): seq<Value> {
    if ts == [] then [] else [Str(ts[0])] + Texts(ts[1..])
  }

  function IdJson(id: Id): Value { Str(Decimal(id)) }

  function TypeName(t: EventType): string {
    match t
    case MessageType => "message"
    case ClarificationRequestType => "clarification_request"
    case ClarificationResponseType => "clarification_response"
    case DataRequestType => "data_request"
    case DataResponseType => "data_response"
    case ActionProposalType => "action_proposal"
    case ActionResultType => "action_result"
    case EvidenceSubmissionType => "evidence_submission"
    case CompletionProposalType => "completion_proposal"
  }

  /** The names under which bodies are stored and hashed. */
  lemma BodiesNameTheirType(b: Body)
    ensures BodyJson(b).Obj? && BodyJson(b).members != [] && BodyJson(b).members[0] == Entry("type", Str(
      match b
      case Message(_) => "message"
      case ClarificationRequest(_) => "clarification_request"
      case ClarificationResponse(_, _) => "clarification_response"
      case DataRequest(_, _) => "data_request"
      case DataResponse(_, _) => "data_response"
      case ActionProposal(_, _, _) => "action_proposal"
      case ActionResult(_, _, _) => "action_result"
      case EvidenceSubmission(_, _, _, _) => "evidence_submission"
      case CompletionProposal(_) => "completion_proposal"))
  {
  }

  function BodyMembers(b: Body): seq<Entry<Value>> {
    match b
    case Message(text) => [Entry("text", Str(text))]
    case ClarificationRequest(question) => [Entry("question", Str(question))]
    case ClarificationResponse(requestId, answer) => [Entry("requestId", IdJson(requestId)), Entry("answer", Str(answer))]
    case DataRequest(purpose, fields) => [Entry("purpose", Str(purpose)), Entry("requestedFields", Arr(Texts(fields)))]
    case DataResponse(requestId, data) => [Entry("requestId", IdJson(requestId)), Entry("data", Obj(DataJson(data)))]
    case ActionProposal(action, parameters, reason) =>
      [Entry("action", Str(action)), Entry("parameters", Obj(DataJson(parameters))), Entry("reason", Str(reason))]
    case ActionResult(id, succeeded, summary) =>
      [Entry("actionEventId", IdJson(id)), Entry("status", Str(if succeeded then "succeeded" else "failed")), Entry("summary", Str(summary))]
    case EvidenceSubmission(criterionId, evidenceType, description, reference) =>
      [Entry("criterionId", Str(criterionId)), Entry("evidenceType", Str(evidenceType)), Entry("description", Str(description)),
       Entry("reference", if reference.Some? then Str(reference.value) else Undefined)]
    case CompletionProposal(summary) => [Entry("summary", Str(summary))]
  }

  function BodyJson(b: Body): Value {
    Obj([Entry("type", Str(TypeName(TypeOf(b))))] + BodyMembers(b))
  }
}
