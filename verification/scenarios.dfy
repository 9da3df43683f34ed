/** End-to-end runs across the indexer and the on-ramp table: events are applied to the store
    and the stored on-ramp is read back the way the table receives it from the GraphQL API. */
module Scenarios {
  import opened Base
  import opened ByteStrings
  import opened Text
  import opened Indexer
  import opened IndexerProperties
  import opened OnrampTable

  function MapHex(b: Option<Bytes>): (r: Option<string>)
    ensures r.Some? <==> b.Some?
    ensures b.Some? ==> r.value == HexString(b.value)
  {
    match b
    case None => None
    case Some(v) => Some(HexString(v))
  }

  /** A stored on-ramp as the table row the API returns: Bytes as 0x-hex strings, BigInts as
      decimal strings, absent fields as null. */
  function ToRow(id: Bytes, o: OnRamp): (row: OnRampRow)
    ensures row.seller.Some? <==> o.seller.Some?
    ensures row.receiptId == o.receiptId
    ensures row.id == HexString(id) && row.status == o.status
  {
    OnRampRow(HexString(id), o.status, MapHex(o.seller), o.receiptId, HexString(o.onRampId),
              o.channelId, MapHex(o.buyer), if o.amount.Some? then DecimalString(o.amount.value) else "")
  }

  /** A request followed by its fill: the off-ramp is COMPLETED, carries the fill's receiver and
      keeps the requested amount. */
  lemma RequestThenFill(s: Store, req: Event, fill: Event)
    requires req.params.RequestOfframpEvent? && fill.params.FillOfframpEvent?
    requires fill.params.requestOfframpId == req.params.requestOfframpId
    ensures var o := Apply(Apply(s, req), fill).offRamps[req.params.requestOfframpId];
            && o.status == STATUS_COMPLETED
            && o.receiver == Some(fill.params.receiver)
            && o.requestedAmount == req.params.amount
  {
  }

  /** A fill for an id never requested changes nothing: no off-ramp appears under that id. */
  lemma FillWithoutRequest(s: Store, fill: Event)
    requires fill.params.FillOfframpEvent? && fill.params.requestOfframpId !in s.offRamps
    ensures Apply(s, fill) == s
    ensures fill.params.requestOfframpId !in Apply(s, fill).offRamps
  {
  }

  /** A task created and then answered twice by the same operator: from an empty store the
      operator ends with one completed task, not two. */
  lemma TaskAnsweredTwice(created: Event, answer: Event)
    requires created.params.NewTaskCreatedEvent? && answer.params.TaskRespondedEvent?
    requires answer.params.respondedTaskIndex == created.params.taskIndex
    ensures var s := Apply(EmptyStore, created);
            CompletedCount(Apply(Apply(s, answer), answer), OperatorId(answer.params.operator)) == 1
  {
    var s := Apply(EmptyStore, created);
    assert TaskId(created.params.taskIndex) in s.tasks;
    TaskResponseCountedOnce(s, answer);
  }

  /** An on-ramp whose receipt id is indexed before any seller accepted it: the row is still
      PENDING (seller is null) and still offers an action, namely the accept form. */
  lemma ReceiptBeforeAcceptance(s: Store, requested: Event, receipt: Event)
    requires requested.params.OnRampRequested? && receipt.params.ReceiptIdSubmitted?
    requires receipt.params.receiptOnRampId == requested.params.requestedId
    requires requested.params.requestedId !in s.onRamps
    ensures var id := requested.params.requestedId;
            var row := ToRow(id, Apply(Apply(s, requested), receipt).onRamps[id]);
            && row.receiptId == Some(receipt.params.receiptId)
            && DeriveStatus(row) == Pending
            && ActionShown(row)
            && AcceptFormShown(Some(row))
  {
  }

  /** The status is computed from the fields, not from arrival order: acceptance and receipt
      indexed in either order give the same row status, COMPLETE exactly when the receipt id is
      non-empty. */
  lemma StatusIgnoresArrivalOrder(s: Store, accepted: Event, receipt: Event)
    requires accepted.params.OnRampAccepted? && receipt.params.ReceiptIdSubmitted?
    requires receipt.params.receiptOnRampId == accepted.params.acceptedId
    ensures var id := accepted.params.acceptedId;
            var d1 := DeriveStatus(ToRow(id, Apply(Apply(s, accepted), receipt).onRamps[id]));
            var d2 := DeriveStatus(ToRow(id, Apply(Apply(s, receipt), accepted).onRamps[id]));
            && d1 == d2
            && (d1 == Complete <==> receipt.params.receiptId != "")
  {
  }
}
