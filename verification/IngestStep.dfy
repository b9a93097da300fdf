/** The ingest handler performs the pipeline's step: what it appends and publishes meets that step's guard. */
module IngestStep {
  import opened Events
  import opened Cursor
  import opened EventStore
  import opened HubIngest
  import opened Pipeline

  /**
   An accepted body is an Insert of its row with its record, followed by a Publish of that record,
   in any state of the pipeline over the same table.
   */
  lemma AcceptedBodyIsAStep(loc: Collator, s: State, iso: int -> string, body: Body, id: string, row: Row, live: EventRecord)
    requires IsIngested(iso, body, id, row, live) && AppendEvent(s.rows, row).Some?
    requires id != "" && IsInt64(body.accepted.occurredAt) && IsInt64(body.accepted.now)
    ensures Enabled(s, Insert(row, live))
    ensures var t := Next(loc, s, Insert(row, live));
      t.rows == s.rows + [row] && (!s.serial ==> Enabled(t, Publish(live)))
  {
    assert live in s.unpublished + multiset{live};
  }
}
