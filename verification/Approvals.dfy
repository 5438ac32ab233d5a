/**
  Approval actions: how the decision gate of app/nodes/decision_gate_node.py finds
  and marks the action of the current proposal, and how commit and cancel finish it.
  Identifiers that the program digests are injective values here.
  */
module Approvals {
  import opened Prelude
  import opened Collections
  import opened Text

  datatype ProposalId = ProposalDigest(facts: string, version: int, body: string) | OtherProposal(text: string)

  datatype ActionId = ApproveOf(proposal: ProposalId) | OtherAction(text: string)

  datatype Decision = Approve | RequestChanges | CancelPlan

  datatype EventId = EventDigest(proposal: ProposalId, version: int, action: ActionId, decision: Decision,
                                 change: Option<string>, reason: Option<string>, client: Option<string>)

  datatype Status = Pending | Approved | ChangesRequested | Cancelled | Committed

  datatype Kind = ApproveProposal | OtherKind

  datatype Action = Action(id: ActionId, kind: Kind, requiresApproval: bool, status: Status,
                           about: Option<ProposalId>, event: Option<EventId>, finalized: bool)

  predicate BlankProposal(id: ProposalId) {
    id.OtherProposal? && Strip(id.text) == ""
  }

  predicate BlankAction(id: ActionId) {
    id.OtherAction? && Strip(id.text) == ""
  }

  // ------------------------------------------------------------- finding the action

  function AwaitsApproval(pid: ProposalId): Action -> bool {
    (a: Action) => a.kind == ApproveProposal && a.requiresApproval && a.status == Pending && a.about == Some(pid)
  }

  /** The only pending approval of the proposal, if there is exactly one. */
  function TheApproval(actions: seq<Action>, pid: ProposalId): Option<Action> {
    var matches := Filter(actions, AwaitsApproval(pid));
    if |matches| == 1 then Some(matches[0]) else None
  }

  method FindPendingApproval(actions: seq<Action>, pid: ProposalId) returns (found: Option<Action>)
    ensures found == TheApproval(actions, pid)
  {
    var matches: seq<Action> := [];
    for i := 0 to |actions|
      invariant matches == Filter(actions[..i], AwaitsApproval(pid))
    {
      var item := actions[i];
      assert actions[..i + 1] == actions[..i] + [item];
      FilterConcat(actions[..i], [item], AwaitsApproval(pid));
      assert [item][1..] == [];
      if item.kind == ApproveProposal && item.requiresApproval && item.status == Pending && item.about == Some(pid) {
        matches := matches + [item];
      }
    }
    assert actions[..|actions|] == actions;
    found := if |matches| == 1 then Some(matches[0]) else None;
  }

  /** The approval is found exactly when one position holds one. */
  lemma FoundIff(actions: seq<Action>, pid: ProposalId, a: Action)
    ensures TheApproval(actions, pid) == Some(a) <==>
              exists i :: 0 <= i < |actions| && actions[i] == a && AwaitsApproval(pid)(a)
                          && forall j | 0 <= j < |actions| && j != i :: !AwaitsApproval(pid)(actions[j])
  {
    var p := AwaitsApproval(pid);
    if TheApproval(actions, pid) == Some(a) {
      var i := OnlyMatch(actions, p);
    }
    if i :| 0 <= i < |actions| && actions[i] == a && p(a) && forall j | 0 <= j < |actions| && j != i :: !p(actions[j]) {
      assert actions == actions[..i] + ([a] + actions[i + 1..]);
      FilterConcat(actions[..i], [a] + actions[i + 1..], p);
      FilterNone(actions[..i], p);
      FilterNone(actions[i + 1..], p);
      assert ([a] + actions[i + 1..])[1..] == actions[i + 1..];
    }
  }

  lemma {:induction false} OnlyMatch(actions: seq<Action>, p: Action -> bool) returns (i: nat)
    requires |Filter(actions, p)| == 1
    ensures i < |actions| && actions[i] == Filter(actions, p)[0] && p(actions[i])
    ensures forall j | 0 <= j < |actions| && j != i :: !p(actions[j])
  {
    if p(actions[0]) {
      i := 0;
      forall j | 0 < j < |actions|
        ensures !p(actions[j])
      {
        FilterMember(actions[1..], p, actions[j]);
        assert actions[1..][j - 1] == actions[j];
      }
    } else {
      var k := OnlyMatch(actions[1..], p);
      i := k + 1;
      assert forall j | 0 < j < |actions| :: actions[j] == actions[1..][j - 1];
    }
  }

  // ------------------------------------------------------------ marking the actions

  function StatusOf(d: Decision): Status {
    match d
    case Approve => Approved
    case RequestChanges => ChangesRequested
    case CancelPlan => Cancelled
  }

  function Decided(d: Decision, e: EventId): Action -> Action {
    (a: Action) => a.(status := StatusOf(d), event := Some(e))
  }

  function Finalized(): Action -> Action {
    (a: Action) => a.(status := Cancelled, finalized := true)
  }

  function Stored(): Action -> Action {
    (a: Action) => a.(status := Committed)
  }

  /** The list with the actions of this id replaced, everything else and the order kept. */
  function Mark(actions: seq<Action>, id: ActionId, edit: Action -> Action): (r: seq<Action>)
    ensures |r| == |actions|
    ensures forall i | 0 <= i < |actions| :: r[i] == if actions[i].id == id then edit(actions[i]) else actions[i]
  {
    if actions == [] then []
    else
      var last := actions[|actions| - 1];
      Mark(actions[..|actions| - 1], id, edit) + [if last.id == id then edit(last) else last]
  }

  /** The loop shared by the three helpers that copy the list and update one action. */
  method MarkActions(actions: seq<Action>, id: ActionId, edit: Action -> Action) returns (updated: seq<Action>)
    ensures updated == Mark(actions, id, edit)
  {
    updated := [];
    for i := 0 to |actions|
      invariant updated == Mark(actions[..i], id, edit)
    {
      assert actions[..i + 1][..i] == actions[..i];
      var item := actions[i];
      if item.id == id {
        item := edit(item);
      }
      updated := updated + [item];
    }
    assert actions[..|actions|] == actions;
  }

  /** Once decided, an approval is no longer found: no decision is taken twice on one action. */
  lemma DecidedIsNotPending(actions: seq<Action>, pid: ProposalId, a: Action, d: Decision, e: EventId)
    requires TheApproval(actions, pid) == Some(a)
    ensures TheApproval(Mark(actions, a.id, Decided(d, e)), pid) == None
  {
    var p := AwaitsApproval(pid);
    FoundIff(actions, pid, a);
    var marked := Mark(actions, a.id, Decided(d, e));
    FilterNone(marked, p);
  }

  /** The action that decides the id, when there is exactly one. */
  function TheAction(actions: seq<Action>, id: ActionId): Option<Action> {
    var matches := Filter(actions, HasId(id));
    if |matches| == 1 then Some(matches[0]) else None
  }

  function HasId(id: ActionId): Action -> bool {
    (a: Action) => a.id == id
  }

  /** Marking a unique action changes that action and leaves it unique. */
  lemma MarkedAction(actions: seq<Action>, id: ActionId, edit: Action -> Action)
    requires forall a: Action :: edit(a).id == a.id
    ensures TheAction(Mark(actions, id, edit), id) ==
            if TheAction(actions, id).Some? then Some(edit(TheAction(actions, id).value)) else None
  {
    FilterMarked(actions, id, edit);
    var matches := Filter(actions, HasId(id));
    if |matches| == 1 {
      FilterMember(actions, HasId(id), matches[0]);
    }
  }

  lemma {:induction false} FilterMarked(actions: seq<Action>, id: ActionId, edit: Action -> Action)
    requires forall a: Action :: edit(a).id == a.id
    ensures Filter(Mark(actions, id, edit), HasId(id)) == Mark(Filter(actions, HasId(id)), id, edit)
  {
    if actions == [] {
    } else {
      var n := |actions| - 1;
      var last := actions[n];
      var rest := actions[..n];
      FilterMarked(rest, id, edit);
      assert actions == rest + [last];
      FilterConcat(rest, [last], HasId(id));
      FilterConcat(Mark(rest, id, edit), [if last.id == id then edit(last) else last], HasId(id));
      assert [last][1..] == [] && [edit(last)][1..] == [];
      if last.id == id {
        assert (Filter(rest, HasId(id)) + [last])[..|Filter(rest, HasId(id))|] == Filter(rest, HasId(id));
      }
    }
  }
}
