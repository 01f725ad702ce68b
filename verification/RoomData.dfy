/** One room as the store keeps it (packages/database/src/types.ts), and what the services need from outside. */
module RoomData {
  import opened Wrappers
  import opened Json
  import opened Policy
  import opened Events
  import Dlp

  type OrgId = string
  type UserId = string

  datatype Error = NotFound | Forbidden | Validation | Conflict | BadState

  datatype Result<+T> = Ok(value: T) | Err(error: Error)

  // ---------------------------------------------------------------------------------------------
  // Records
  // ---------------------------------------------------------------------------------------------

  /** Spend is in dollars. */
  datatype Budget = Budget(maxTurns: int, maxDurationMinutes: int, maxToolCalls: int, maxSpend: real)

  datatype Usage = Usage(turns: nat, toolCalls: nat, spend: real, startedAtMs: Option<int>)

  datatype Room = Room(
    state: RoomState, budget: Budget, usage: Usage,
    startedAt: Option<int>, completedAt: Option<int>, closedAt: Option<int>)

  datatype Role = Customer | Provider

  datatype Participant = Participant(
    id: Id, org: OrgId, role: Role, agent: Option<Id>, policy: Option<ParticipantPolicy>,
    contractApproved: Option<int>, completionApprovedBy: Option<UserId>)

  datatype Invite = Invite(
    invitingOrg: OrgId, expiresAt: int, redeemedAt: Option<int>, revokedAt: Option<int>,
    maxRedemptions: int, redemptions: int)

  datatype ContractVersion = ContractVersion(version: int, contract: Contract)

  datatype Status = Pending | Approved | Rejected | Expired | Invalidated

  datatype Approval = Approval(
    requestedBy: Id, body: Body, parametersHash: string, status: Status,
    decidedBy: Option<UserId>, decidedAt: Option<int>, approverOrg: OrgId, expiresAt: int, consumedAt: Option<int>)

  /** The same body, held for the same participant under the same hash, for the same organization to decide until
      the same moment. */
  predicate SameRequest(a: Approval, b: Approval) {
    && a.requestedBy == b.requestedBy && a.body == b.body && a.parametersHash == b.parametersHash
    && a.approverOrg == b.approverOrg && a.expiresAt == b.expiresAt
  }

  datatype Verification = Claimed | HumanVerified

  datatype Evidence = Evidence(
    criterionId: string, submittedBy: Id, verification: Verification, verifiedBy: Option<UserId>)

  /** A criterion without a record is PENDING. */
  datatype CriterionState = EvidenceSubmitted | Verified

  datatype Content = FromAgent(body: Body) | FromPlatform(notice: Notice)

  datatype Event = Event(
    id: Id, sequence: int, sender: Option<Id>, recipient: Option<Id>, content: Content, classification: Classification)

  /** Everything stored about one room. `history` lists every room state ever stored, oldest first. */
  datatype Db = Db(
    room: Room,
    participants: seq<Participant>,
    invites: map<Id, Invite>,
    contracts: seq<ContractVersion>,
    events: seq<Event>,
    approvals: map<Id, Approval>,
    evidence: map<Id, Evidence>,
    criteria: map<string, CriterionState>,
    nextId: Id,
    history: seq<RoomState>)

  // ---------------------------------------------------------------------------------------------
  // Lookups
  // ---------------------------------------------------------------------------------------------

  function Find(ps: seq<Participant>, id: Id): (r: Option<Participant>)
    ensures r.Some? ==> r.value in ps && r.value.id == id
    ensures r.None? ==> forall p :: p in ps ==> p.id != id
  {
    if ps == [] then None else if ps[0].id == id then Some(ps[0]) else Find(ps[1..], id)
  }

  /** The first participant other than `id`. */
  function Peer(ps: seq<Participant>, id: Id): Option<Id> {
    if ps == [] then None else if ps[0].id != id then Some(ps[0].id) else Peer(ps[1..], id)
  }

  /** Storing a participant record under its id. */
  function Replaced(ps: seq<Participant>, p: Participant): (r: seq<Participant>)
    ensures |r| == |ps| && forall i :: 0 <= i < |ps| ==> r[i] == if ps[i].id == p.id then p else ps[i]
  {
    if ps == [] then [] else [if ps[0].id == p.id then p else ps[0]] + Replaced(ps[1..], p)
  }

  /** Storing a participant record, whether its id is new or not. */
  function Upserted(ps: seq<Participant>, p: Participant): seq<Participant> {
    if Find(ps, p.id).Some? then Replaced(ps, p) else ps + [p]
  }

  /** The contract with the highest version. */
  function Latest(cs: seq<ContractVersion>): (c: ContractVersion)
    requires cs != []
    ensures c in cs
  {
    var n := |cs| - 1;
    if n == 0 then cs[0]
    else
      var best := Latest(cs[..n]);
      if best.version > cs[n].version then best else cs[n]
  }

  function LatestVersion(cs: seq<ContractVersion>): int { if cs == [] then 0 else Latest(cs).version }

  // ---------------------------------------------------------------------------------------------
  // What the services find outside
  // ---------------------------------------------------------------------------------------------

  /** The DLP pass over a body with an optional declaration, and the parameters hash of a body. */
  datatype Env = Env(scan: (Body, Option<Classification>) -> Dlp.Report, hash: Body -> string) {
    /** What the room's guarantees need of the scanner: a declaration changes no finding and removes no label. */
    ghost predicate Valid() {
      forall b, c :: Tightens(b, c)
    }

    ghost predicate Tightens(b: Body, c: Classification) {
      var with, without := scan(b, Some(c)), scan(b, None);
      && with.secretFindings == without.secretFindings
      && forall k :: k in without.classification.categories ==> k in with.classification.categories || k == General
    }
  }

  /** The environment built from secret and personal-data detectors and a digest. */
  function EnvOf(d: Dlp.Detectors, digest: string -> string): Env {
    Env((b: Body, c: Option<Classification>) => Dlp.Scan(d, BodyJson(b), c), (b: Body) => digest(Text(BodyJson(b))))
  }

  lemma EnvOfIsValid(d: Dlp.Detectors, digest: string -> string)
    ensures EnvOf(d, digest).Valid()
  {
    var env := EnvOf(d, digest);
    forall b, c ensures env.Tightens(b, c) {
      var without := env.scan(b, None).classification.categories;
      forall k | k in without ensures k in env.scan(b, Some(c)).classification.categories || k == General {
        Dlp.UndeclaredIsFound(d, BodyJson(b), k);
        Dlp.DeclarationMerges(d, BodyJson(b), c, k);
      }
    }
  }
}
