/** The vocabulary of the event log: streams, events, payloads and the items of an append batch. */
module Events {
  const NO_VERSION_CHECK: int := -1
  const STREAM_DOES_NOT_EXIST: int := 0

  datatype Option<+T> = Some(value: T) | None

  datatype Result<+T, +E> = Success(value: T) | Failure(error: E)

  datatype AggregateKind = Account | InventoryItem | OtherKind(name: string)

  /** One aggregate's stream: the pair (AggregateType, AggregateID). */
  datatype StreamKey = StreamKey(kind: AggregateKind, id: string)

  function AccountKey(id: string): StreamKey {
    StreamKey(Account, id)
  }

  function ItemKey(id: string): StreamKey {
    StreamKey(InventoryItem, id)
  }

  datatype EventType =
    | TypeAccountOpened
    | TypeFundsDeposited
    | TypeFundsWithdrawn
    | TypeInventoryAdjusted
    | TypeStockReserved
    | TypeStockReleased
    | TypeUnknown(name: string)

  /** An event's type together with its decoded payload; `Malformed` is a type whose bytes do not decode. */
  datatype Payload =
    | AccountOpened(initialBalanceCents: int)
    | FundsDeposited(amountCents: int)
    | FundsWithdrawn(amountCents: int)
    | InventoryAdjusted(deltaQuantity: int)
    | StockReserved(quantity: int)
    | StockReleased(quantity: int)
    | Malformed(eventType: EventType)

  /** A persisted event. `version` is its 1-based position in its own stream. */
  datatype Event = Event(
    globalSeq: int, stream: StreamKey, version: int, payload: Payload, dedupeKey: string)

  /** One item of an append batch, with the version its stream is expected to have. */
  datatype AppendEvent = AppendEvent(stream: StreamKey, payload: Payload, expectedVersion: int)
}
