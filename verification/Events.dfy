/** Domain events, as the rows of the outbox. */
module Events {
  import opened Results
  import opened Tables

  datatype Kind =
    | TransactionAuthorized | TransactionDenied | TransactionCaptured | TransactionCanceled | TransactionChargebacked
    | ChargebackOpened | ReceivablesScheduled | AnticipationConfirmed | SettlementCompleted | SettlementFailed

  datatype EventData = EventData(kind: Kind, aggregate: Id, merchant: Id)

  type Event = Row<EventData>

  function NewEvent(id: Id, kind: Kind, aggregate: Id, merchant: Id): Event {
    Row(id, 1, EventData(kind, aggregate, merchant))
  }
}
