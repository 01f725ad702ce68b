/** The in-memory store, for one room (packages/database/src/memory.ts). */
module RoomStore {
  import opened Wrappers
  import opened Policy
  import opened Events
  import opened RoomData
  import Spec = RoomSpec

  class Store {
    var room: Room
    var participants: seq<Participant>
    var invites: map<Id, Invite>
    var contracts: seq<ContractVersion>
    var events: seq<Event>
    var approvals: map<Id, Approval>
    var evidence: map<Id, Evidence>
    var criteria: map<string, CriterionState>
    var nextId: Id
    ghost var history: seq<RoomState>

    ghost function View(): Db
      reads this
    {
      Db(room, participants, invites, contracts, events, approvals, evidence, criteria, nextId, history)
    }

    /** `createRoom` in packages/core/src/rooms.ts: the room in DRAFT, and its creator as the first participant. */
    constructor (org: OrgId, budget: Budget)
      ensures View() == Spec.CreateRoom(org, budget)
    {
      room := Room(Draft, budget, Usage(0, 0, 0.0, None), None, None, None);
      participants := [Participant(0, org, Customer, None, None, None, None)];
      invites, contracts, events, approvals, evidence, criteria := map[], [], [], map[], map[], map[];
      nextId, history := 1, [Draft];
    }

    method NewId() returns (id: Id)
      modifies this`nextId
      ensures id == old(nextId) && View() == old(View()).(nextId := id + 1)
    {
      id := nextId;
      nextId := nextId + 1;
    }

    method UpdateRoom(r: Room)
      modifies this`room, this`history
      ensures View() == Spec.StoreRoom(old(View()), r)
    {
      room := r;
      history := history + [r.state];
    }

    method CreateParticipant(p: Participant)
      modifies this`participants
      ensures View() == old(View()).(participants := old(participants) + [p])
    {
      participants := participants + [p];
    }

    /** Replaces the record with that id, and adds one when there is none. */
    method UpdateParticipant(p: Participant)
      modifies this`participants
      ensures View() == old(View()).(participants := Upserted(old(participants), p))
    {
      var known := false;
      for i := 0 to |participants|
        invariant |participants| == |old(participants)|
        invariant known <==> exists j :: 0 <= j < i && old(participants)[j].id == p.id
        invariant forall j :: i <= j < |participants| ==> participants[j] == old(participants)[j]
        invariant forall j :: 0 <= j < i ==> participants[j] == if old(participants)[j].id == p.id then p else old(participants)[j]
      {
        if participants[i].id == p.id {
          participants := participants[i := p];
          known := true;
        }
      }
      assert participants == Replaced(old(participants), p);
      if !known {
        assert participants == old(participants) && Find(participants, p.id).None?;
        participants := participants + [p];
      }
    }

    method GetParticipant(id: Id) returns (r: Option<Participant>)
      ensures r == Find(participants, id)
    {
      for i := 0 to |participants|
        invariant Find(participants, id) == Find(participants[i..], id)
      {
        if participants[i].id == id { return Some(participants[i]); }
        assert participants[i..][1..] == participants[i + 1..];
      }
      return None;
    }

    /** The first participant other than `id`. */
    method PeerOf(id: Id) returns (r: Option<Id>)
      ensures r == Peer(participants, id)
    {
      for i := 0 to |participants|
        invariant Peer(participants, id) == Peer(participants[i..], id)
      {
        if participants[i].id != id { return Some(participants[i].id); }
        assert participants[i..][1..] == participants[i + 1..];
      }
      return None;
    }

    method CreateInvite(i: Invite) returns (id: Id)
      modifies this`invites, this`nextId
      ensures id == old(nextId) && View() == old(View()).(invites := old(invites)[id := i], nextId := id + 1)
    {
      id := NewId();
      invites := invites[id := i];
    }

    method UpdateInvite(id: Id, i: Invite)
      modifies this`invites
      ensures View() == old(View()).(invites := old(invites)[id := i])
    {
      invites := invites[id := i];
    }

    method CreateContractVersion(v: ContractVersion)
      modifies this`contracts
      ensures View() == old(View()).(contracts := old(contracts) + [v])
    {
      contracts := contracts + [v];
    }

    /** The version with the highest number; of equal ones the later. */
    method LatestContractVersion() returns (r: Option<ContractVersion>)
      ensures r == if contracts == [] then None else Some(Latest(contracts))
    {
      if contracts == [] { return None; }
      var best := contracts[0];
      for i := 1 to |contracts|
        invariant best == Latest(contracts[..i])
      {
        assert contracts[..i + 1][..i] == contracts[..i];
        best := if best.version > contracts[i].version then best else contracts[i];
      }
      assert contracts[..|contracts|] == contracts;
      return Some(best);
    }

    /** Appends under a new id with the next sequence number. */
    method AppendRoomEvent(sender: Option<Id>, recipient: Option<Id>, content: Content, labels: Classification) returns (e: Event)
      modifies this`events, this`nextId
      ensures View() == Spec.Appended(old(View()), sender, recipient, content, labels)
      ensures events == old(events) + [e] && e.id == old(nextId)
    {
      var id := NewId();
      e := Event(id, |events| + 1, sender, recipient, content, labels);
      events := events + [e];
    }

    method Note(notice: Notice)
      modifies this`events, this`nextId
      ensures View() == Spec.Noted(old(View()), notice)
    {
      var _ := AppendRoomEvent(None, None, FromPlatform(notice), Classification(InternalLevel, [General]));
    }

    method CreateApproval(a: Approval) returns (id: Id)
      modifies this`approvals, this`nextId
      ensures id == old(nextId) && View() == old(View()).(approvals := old(approvals)[id := a], nextId := id + 1)
    {
      id := NewId();
      approvals := approvals[id := a];
    }

    method UpdateApproval(id: Id, a: Approval)
      modifies this`approvals
      ensures View() == old(View()).(approvals := old(approvals)[id := a])
    {
      approvals := approvals[id := a];
    }

    /** The one compare-and-set: the patch is stored exactly when the approval has the expected status. */
    method ClaimApproval(id: Id, from: Status, patch: Approval -> Approval) returns (claimed: bool)
      modifies this`approvals
      ensures claimed <==> id in old(approvals) && old(approvals)[id].status == from
      ensures claimed ==> View() == old(View()).(approvals := old(approvals)[id := patch(old(approvals)[id])])
      ensures !claimed ==> View() == old(View())
    {
      if id !in approvals || approvals[id].status != from { return false; }
      approvals := approvals[id := patch(approvals[id])];
      return true;
    }

    method CreateEvidence(e: Evidence)
      modifies this`evidence, this`nextId
      ensures View() == old(View()).(evidence := old(evidence)[old(nextId) := e], nextId := old(nextId) + 1)
    {
      var id := NewId();
      evidence := evidence[id := e];
    }

    method UpdateEvidence(id: Id, e: Evidence)
      modifies this`evidence
      ensures View() == old(View()).(evidence := old(evidence)[id := e])
    {
      evidence := evidence[id := e];
    }

    method UpsertCriterionStatus(criterion: string, state: CriterionState)
      modifies this`criteria
      ensures View() == old(View()).(criteria := old(criteria)[criterion := state])
    {
      criteria := criteria[criterion := state];
    }
  }
}
