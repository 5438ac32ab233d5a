/**
  The approval records behind app/services/commit_draft_service.py, as far as
  committing the same decision or the same proposal again goes by them. A
  transaction writes the record together with its draft and version.
  */
module DraftStore {
  import opened Prelude
  import opened Approvals

  /** One approval record; `ours` when it belongs to the user of the session. */
  datatype Row = Row(event: EventId, proposal: ProposalId, ours: bool)

  /** The first record that fits; the columns looked up are unique. */
  function FirstRow(rows: seq<Row>, fits: Row -> bool): (r: Option<Row>)
    ensures r.Some? ==> r.value in rows && fits(r.value)
    ensures r.None? ==> forall x | x in rows :: !fits(x)
  {
    if rows == [] then None
    else if fits(rows[0]) then Some(rows[0])
    else FirstRow(rows[1..], fits)
  }

  /** What was saved before for the decision, or else for the proposal. */
  function SavedRow(rows: seq<Row>, e: EventId, p: ProposalId): Option<Row> {
    var same := FirstRow(rows, (r: Row) => r.event == e);
    if same.Some? then same else FirstRow(rows, (r: Row) => r.proposal == p)
  }

  lemma SavedRowFits(rows: seq<Row>, e: EventId, p: ProposalId)
    ensures var r := SavedRow(rows, e, p);
            && (r.Some? <==> exists x :: x in rows && (x.event == e || x.proposal == p))
            && (r.Some? ==> r.value in rows && (r.value.event == e || r.value.proposal == p))
  {
  }

  lemma {:induction false} FirstRowSnoc(rows: seq<Row>, x: Row, fits: Row -> bool)
    requires forall r | r in rows :: !fits(r)
    requires fits(x)
    ensures FirstRow(rows + [x], fits) == Some(x)
  {
    if rows == [] {
    } else {
      assert (rows + [x])[1..] == rows[1..] + [x];
      FirstRowSnoc(rows[1..], x, fits);
    }
  }

  /** A record just written is the one found for its decision. */
  lemma WrittenIsFound(rows: seq<Row>, e: EventId, p: ProposalId)
    requires SavedRow(rows, e, p).None?
    ensures SavedRow(rows + [Row(e, p, true)], e, p) == Some(Row(e, p, true))
  {
    FirstRowSnoc(rows, Row(e, p, true), (r: Row) => r.event == e);
  }

  /** No decision and no proposal has two records. */
  ghost predicate SavedOnce(rows: seq<Row>) {
    forall i, j | 0 <= i < j < |rows| :: rows[i].event != rows[j].event && rows[i].proposal != rows[j].proposal
  }

  lemma WrittenOnce(rows: seq<Row>, e: EventId, p: ProposalId)
    requires SavedOnce(rows) && SavedRow(rows, e, p).None?
    ensures SavedOnce(rows + [Row(e, p, true)])
  {
    SavedRowFits(rows, e, p);
    forall i | 0 <= i < |rows|
      ensures rows[i].event != e && rows[i].proposal != p
    {
      assert rows[i] in rows;
    }
  }
}
