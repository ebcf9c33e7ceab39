/** What travels over Kafka between the services of the saga. */
module Messages {
  import opened OrderEntity

  datatype Purpose = ForReserve | ForPayment | ForRelease

  /** A command id, by what it is built from: the saga's uuid and the step it serves. */
  datatype CommandKey = CommandKey(sagaId: string, purpose: Purpose)

  datatype Message =
    | ReserveStock(key: CommandKey, orderId: string, correlationId: string, lines: seq<Line>)
    | ReleaseStock(key: CommandKey, orderId: string, correlationId: string, lines: seq<Line>)
    | ProcessPayment(key: CommandKey, orderId: string, correlationId: string, userId: string, amount: Money)
    | StockReserved(key: CommandKey, orderId: string, correlationId: string, items: seq<PricedLine>, total: Money)
    | StockReservationFailed(key: CommandKey, orderId: string, correlationId: string, reason: string)
    | StockReleased(key: CommandKey, orderId: string, correlationId: string)
    | PaymentProcessed(key: CommandKey, orderId: string, correlationId: string, transactionId: string)
    | PaymentFailed(key: CommandKey, orderId: string, correlationId: string, reason: string)
    | OrderConfirmed(orderId: string, userId: string, userEmail: string, correlationId: string,
                     items: seq<PricedLine>, total: Money)
    | OrderCancelled(orderId: string, userId: string, userEmail: string, correlationId: string, reason: string)

  predicate IsReply(m: Message) {
    m.StockReserved? || m.StockReservationFailed? || m.StockReleased? || m.PaymentProcessed? || m.PaymentFailed?
  }

  predicate IsOutcome(m: Message) {
    m.OrderConfirmed? || m.OrderCancelled?
  }

  function Suffix(purpose: Purpose): string {
    match purpose
    case ForReserve => ""
    case ForPayment => "-pay"
    case ForRelease => "-release"
  }

  /** The text that is the primary key of the participants' idempotency tables. */
  function KeyText(key: CommandKey): string {
    key.sagaId + Suffix(key.purpose)
  }

  const UUID_LENGTH: nat := 36

  /** Saga ids are uuids of one fixed length, so the texts of two command ids are equal only
      when the ids are: reserve, pay and release keys never collide, across all sagas. */
  lemma KeyTextInjective(a: CommandKey, b: CommandKey)
    requires |a.sagaId| == UUID_LENGTH && |b.sagaId| == UUID_LENGTH
    ensures KeyText(a) == KeyText(b) <==> a == b
  {
    if KeyText(a) == KeyText(b) {
      assert KeyText(a)[..UUID_LENGTH] == a.sagaId;
      assert KeyText(b)[..UUID_LENGTH] == b.sagaId;
      assert |Suffix(a.purpose)| == |Suffix(b.purpose)|;
    }
  }
}
