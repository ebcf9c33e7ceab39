/** The protocol seen from one order: the invariant its state keeps, which messages about it
    can exist, and in which ways its state can only grow. */
module Local {
  import opened Basics
  import opened OrderEntity
  import opened Messages
  import opened Orchestrator
  import opened PaymentService
  import opened World
  import S = SagaEntity

  predicate Reserved(v: View) {
    v.reservation.Some? && v.reservation.value.StockReserved?
  }

  predicate Refused(v: View) {
    v.reservation.Some? && v.reservation.value.StockReservationFailed?
  }

  predicate Charged(v: View) {
    v.payment.Some? && v.payment.value.PaymentProcessed?
  }

  predicate Declined(v: View) {
    v.payment.Some? && v.payment.value.PaymentFailed?
  }

  predicate Released(v: View) {
    v.release.Some?
  }

  /** A reason written by a participant is never the text of an exhausted retry budget. */
  predicate DomainReason(reason: string) {
    reason != [] && reason[0] != 'M'
  }

  /** A message about this order's saga, for this purpose. */
  predicate About(v: View, m: Message, purpose: Purpose)
    requires !IsOutcome(m)
  {
    m.key == CommandKey(v.saga.id, purpose) && m.orderId == v.order.id && m.correlationId == v.saga.correlationId
  }

  predicate SameLines(v: View, lines: seq<Line>) {
    multiset(lines) == multiset(ItemLines(v.order.items))
  }

  // ---- the stored replies ----

  predicate ReservationOk(v: View) {
    v.reservation.Some? ==>
      var r := v.reservation.value;
      && (r.StockReserved? || r.StockReservationFailed?)
      && About(v, r, ForReserve)
      && (r.StockReserved? ==>
            SameLines(v, PricedLines(r.items)) && OnePricePerProduct(r.items) && r.total == PricedTotal(r.items))
      && (r.StockReservationFailed? ==> DomainReason(r.reason))
  }

  /** Stock is given back only after it was taken and the payment was declined. */
  predicate ReleaseOk(v: View) {
    Released(v) ==>
      v.release.value.StockReleased? && About(v, v.release.value, ForRelease) && Reserved(v) && Declined(v)
  }

  /** A payment is answered only for reserved stock; the row is settled exactly when the answer
      is yes, for the user of the order and the total of the reservation. */
  predicate PaymentOk(v: View) {
    match v.payment
    case None => v.paymentRow.None?
    case Some(p) =>
      && (p.PaymentProcessed? || p.PaymentFailed?)
      && About(v, p, ForPayment)
      && Reserved(v)
      && v.paymentRow.Some?
      && v.paymentRow.value.userId == v.order.userId
      && v.paymentRow.value.amount == v.reservation.value.total
      && (v.paymentRow.value.status == Settled <==> p.PaymentProcessed?)
      && v.paymentRow.value.transactionId == (if p.PaymentProcessed? then Some(p.transactionId) else None)
      && (p.PaymentFailed? ==> DomainReason(p.reason))
  }

  // ---- saga and order together ----

  /** The order shows the reservation's lines, names and prices, and they add up. */
  predicate PricedAsReserved(v: View) {
    && Reserved(v) && v.order.total == v.reservation.value.total && ItemsTotal(v.order.items) == v.order.total
    && multiset(MapSeq(v.order.items, ItemPriced())) == multiset(v.reservation.value.items)
  }

  predicate OrderOk(v: View) {
    match v.order.status
    case Pending => v.payment.None?
    case Confirmed => PricedAsReserved(v)
    case Cancelled =>
      && v.saga.status == S.Aborted
      && ( || (Refused(v) && v.payment.None?)
           || (PricedAsReserved(v) && Declined(v) && Released(v)))
    case Completed => false
  }

  predicate SagaOk(v: View) {
    && S.Coherent(v.saga)
    && v.saga.orderId == v.order.id
    && match v.saga.step
       case ReserveStock => v.order.status == Pending && v.saga.lastError == None
       case ProcessPayment => v.order.status == Confirmed && v.saga.lastError == None
       case ReleaseStock =>
         v.order.status == Confirmed && Declined(v) && v.saga.lastError == Some(v.payment.value.reason)
       case Completed => v.order.status == Confirmed && Charged(v)
       case Failed =>
         if v.order.status == Cancelled then v.saga.lastError == Some(CancelReason(v))
         else v.saga.lastError == Some(S.RETRIES_EXHAUSTED) && v.saga.retryCount == S.MAX_RETRIES
  }

  /** Why the order had to be cancelled, read off the participants' replies. */
  function CancelReason(v: View): string {
    if Refused(v) then v.reservation.value.reason
    else if Declined(v) then v.payment.value.reason
    else ""
  }

  const MAX_ROWS: nat := 7

  predicate CountsOk(v: View) {
    && v.rows + S.UpdatesLeft(v.saga) <= MAX_ROWS
    && v.outcomes == (if v.saga.status == S.Succeeded || v.order.status == Cancelled then 1 else 0)
    && (v.confirmedMail ==> v.saga.status == S.Succeeded)
    && (v.cancelledMail ==> v.order.status == Cancelled)
    && v.mails == (if v.confirmedMail then 1 else 0) + (if v.cancelledMail then 1 else 0)
  }

  /** Only a refused order has leaked, and only lines it asked for. */
  predicate LeakOk(v: View) {
    && (v.leak != [] ==> Refused(v))
    && multiset(v.leak) <= multiset(ItemLines(v.order.items))
  }

  /** The invariant of one order. */
  predicate Ok(v: View) {
    ReservationOk(v) && ReleaseOk(v) && PaymentOk(v) && OrderOk(v) && SagaOk(v) && CountsOk(v) && LeakOk(v)
  }

  // ---- messages ----

  /** Which messages about an order can have been written, given the order's state. Every
      clause is about facts that, once true, stay true. */
  predicate Legal(v: View, m: Message) {
    match m
    case ReserveStock(_, _, _, lines) => About(v, m, ForReserve) && SameLines(v, lines)
    case ReleaseStock(_, _, _, lines) => About(v, m, ForRelease) && SameLines(v, lines) && Declined(v)
    case ProcessPayment(_, _, _, userId, amount) =>
      && About(v, m, ForPayment)
      && Reserved(v)
      && v.order.status != Pending
      && userId == v.order.userId
      && amount == v.reservation.value.total
    case StockReserved(_, _, _, _, _) => v.reservation == Some(m)
    case StockReservationFailed(_, _, _, _) => v.reservation == Some(m)
    case StockReleased(_, _, _) => v.release == Some(m)
    case PaymentProcessed(_, _, _, _) => v.payment == Some(m)
    case PaymentFailed(_, _, _, _) => v.payment == Some(m)
    case OrderConfirmed(orderId, userId, userEmail, correlationId, items, total) =>
      && v.saga.status == S.Succeeded
      && orderId == v.order.id && userId == v.order.userId
      && userEmail == v.order.userEmail && correlationId == v.saga.correlationId
      && total == v.order.total
      && multiset(items) == multiset(MapSeq(v.order.items, ItemPriced()))
    case OrderCancelled(orderId, userId, userEmail, correlationId, reason) =>
      && v.order.status == Cancelled
      && orderId == v.order.id && userId == v.order.userId
      && userEmail == v.order.userEmail && correlationId == v.saga.correlationId
      && reason == CancelReason(v)
  }

  // ---- growth ----

  /** Once stored, a reply stays. */
  predicate Kept<T(==)>(a: Option<T>, b: Option<T>) {
    a.Some? ==> b == a
  }

  /** What no step undoes, about one order. */
  predicate Grows(v: View, v': View) {
    && v'.saga.id == v.saga.id && v'.saga.orderId == v.saga.orderId
    && v'.saga.correlationId == v.saga.correlationId
    && v'.order.id == v.order.id && v'.order.userId == v.order.userId && v'.order.userEmail == v.order.userEmail
    && multiset(ItemLines(v'.order.items)) == multiset(ItemLines(v.order.items))
    && Kept(v.reservation, v'.reservation)
    && Kept(v.release, v'.release)
    && Kept(v.payment, v'.payment)
    && Kept(v.paymentRow, v'.paymentRow)
    && (v.saga.status != S.Running ==> v'.saga == v.saga && v'.order.status == v.order.status)
    && (v'.saga != v.saga ==> S.UpdatesLeft(v'.saga) < S.UpdatesLeft(v.saga))
    && v.saga.retryCount <= v'.saga.retryCount
    && (v.order.status == Cancelled ==> v'.order.status == Cancelled)
    && (v.order.status == Confirmed ==> v'.order.status in {Confirmed, Cancelled})
    && (v.order.status != Pending ==>
          && v'.order.status != Pending
          && v'.order.total == v.order.total
          && multiset(MapSeq(v'.order.items, ItemPriced())) == multiset(MapSeq(v.order.items, ItemPriced())))
    && v.rows <= v'.rows && v.outcomes <= v'.outcomes && v.mails <= v'.mails
  }

  lemma GrowsReflexive(v: View)
    ensures Grows(v, v)
  {
  }

  lemma GrowsTransitive(a: View, b: View, c: View)
    requires Grows(a, b) && Grows(b, c)
    ensures Grows(a, c)
  {
  }

  /** A message that was legal stays legal. */
  lemma LegalStays(v: View, v': View, m: Message)
    requires Grows(v, v') && Legal(v, m) && Ok(v)
    ensures Legal(v', m)
  {
  }

  // ---- the orchestrator's transactions, on one order ----

  /** The view after an orchestrator transaction that replaces order and saga and may write one
      message. */
  function After(v: View, order: Order, saga: S.Saga, sent: Option<Message>): View {
    v.(order := order, saga := saga,
       rows := v.rows + (if sent.Some? then 1 else 0),
       outcomes := v.outcomes + (if sent.Some? && IsOutcome(sent.value) then 1 else 0))
  }

  /** The transaction is a proper step of this order. */
  predicate ProperStep(v: View, order: Order, saga: S.Saga, sent: Option<Message>) {
    && Ok(After(v, order, saga, sent))
    && Grows(v, After(v, order, saga, sent))
    && (sent.Some? ==> sent.value.orderId == v.order.id && Legal(After(v, order, saga, sent), sent.value))
  }

  lemma ConfirmKeepsOk(v: View, event: Message, order: Order, saga: S.Saga, sent: Message)
    requires Ok(v) && S.CanHandle(v.saga, S.ReserveStock)
    requires event.StockReserved? && v.reservation == Some(event)
    requires order == v.order.(status := Confirmed, total := event.total, items := order.items)
    requires ItemLines(order.items) == ItemLines(v.order.items) && ItemsTotal(order.items) == event.total
    requires multiset(MapSeq(order.items, ItemPriced())) == multiset(event.items)
    requires saga == v.saga.(step := S.ProcessPayment, nextRetryAt := saga.nextRetryAt) && saga.nextRetryAt.Some?
    requires sent == PayCommand(v.saga, event.orderId, v.order.userId, event.total)
    ensures ProperStep(v, order, saga, Some(sent))
  {
    hide MapSeq, SumBy, ItemLines, PricedLines, ItemsTotal, PricedTotal, OnePricePerProduct, ItemPriced;
  }

  lemma ConfirmStep(v: View, event: Message, now: int)
    requires Ok(v) && S.CanHandle(v.saga, S.ReserveStock)
    requires event.StockReserved? && v.reservation == Some(event)
    ensures var confirmed, advanced := Confirm(v.order, event.total, event.items), S.Advance(v.saga, now);
            && confirmed.Done? && advanced.Done?
            && ProperStep(v, confirmed.value, advanced.value,
                          Some(PayCommand(v.saga, event.orderId, v.order.userId, event.total)))
  {
    ConfirmPricesEveryItem(v.order, event.items);
    ConfirmKeepsOk(v, event, Confirm(v.order, event.total, event.items).value, S.Advance(v.saga, now).value,
                   PayCommand(v.saga, event.orderId, v.order.userId, event.total));
  }

  lemma RefusedStep(v: View, event: Message)
    requires Ok(v) && S.CanHandle(v.saga, S.ReserveStock)
    requires event.StockReservationFailed? && v.reservation == Some(event)
    ensures var cancelled := Compensate(v.order);
            && cancelled.Done?
            && ProperStep(v, cancelled.value, S.Fail(v.saga, event.reason),
                          Some(OrderCancelled(v.order.id, v.order.userId, v.order.userEmail, v.saga.correlationId,
                                              event.reason)))
  {
    hide MapSeq, SumBy, ItemLines, PricedLines, ItemsTotal, PricedTotal, OnePricePerProduct, ItemPriced;
  }

  lemma CompleteStep(v: View, event: Message, now: int)
    requires Ok(v) && S.CanHandle(v.saga, S.ProcessPayment)
    requires event.PaymentProcessed? && v.payment == Some(event)
    ensures var advanced := S.Advance(v.saga, now);
            && advanced.Done?
            && ProperStep(v, v.order, advanced.value,
                          Some(OrderConfirmed(v.order.id, v.order.userId, v.order.userEmail, v.saga.correlationId,
                                              MapSeq(v.order.items, ItemPriced()), v.order.total)))
  {
    hide MapSeq, SumBy, ItemLines, PricedLines, ItemsTotal, PricedTotal, OnePricePerProduct, ItemPriced;
  }

  lemma CompensateStep(v: View, event: Message, now: int)
    requires Ok(v) && S.CanHandle(v.saga, S.ProcessPayment)
    requires event.PaymentFailed? && v.payment == Some(event)
    ensures ProperStep(v, v.order, S.StartCompensation(v.saga, event.reason, now),
                       Some(ReleaseCommand(v.saga, event.orderId, ItemLines(v.order.items))))
  {
    hide MapSeq, SumBy, ItemLines, PricedLines, ItemsTotal, PricedTotal, OnePricePerProduct, ItemPriced;
  }

  lemma ReleasedStep(v: View, event: Message)
    requires Ok(v) && S.CanHandle(v.saga, S.ReleaseStock)
    requires event.StockReleased? && v.release == Some(event)
    ensures v.saga.lastError.Some?
    ensures var cancelled := Compensate(v.order);
            && cancelled.Done?
            && ProperStep(v, cancelled.value, S.Fail(v.saga, v.saga.lastError.value),
                          Some(OrderCancelled(v.order.id, v.order.userId, v.order.userEmail, v.saga.correlationId,
                                              v.saga.lastError.value)))
  {
    hide MapSeq, SumBy, ItemLines, PricedLines, ItemsTotal, PricedTotal, OnePricePerProduct, ItemPriced;
  }

  lemma GiveUpStep(v: View)
    requires Ok(v) && v.saga.status == S.Running && S.HasExceededMaxRetries(v.saga)
    ensures ProperStep(v, v.order, S.Fail(v.saga, S.RETRIES_EXHAUSTED), None)
  {
    hide MapSeq, SumBy, ItemLines, PricedLines, ItemsTotal, PricedTotal, OnePricePerProduct, ItemPriced;
  }

  /** The command that the current step of a running saga waits for an answer to. */
  function CurrentCommand(saga: S.Saga, order: Order): Message
    requires saga.step in {S.ReserveStock, S.ProcessPayment, S.ReleaseStock}
  {
    match saga.step
    case ReserveStock =>
      ReserveStock(CommandKey(saga.id, ForReserve), saga.orderId, saga.correlationId, ItemLines(order.items))
    case ProcessPayment =>
      ProcessPayment(CommandKey(saga.id, ForPayment), saga.orderId, saga.correlationId, order.userId, order.total)
    case ReleaseStock =>
      ReleaseStock(CommandKey(saga.id, ForRelease), saga.orderId, saga.correlationId, ItemLines(order.items))
  }

  lemma RetryStep(v: View, now: int)
    requires Ok(v) && v.saga.status == S.Running && !S.HasExceededMaxRetries(v.saga)
    ensures v.saga.step in {S.ReserveStock, S.ProcessPayment, S.ReleaseStock}
    ensures ProperStep(v, v.order, S.ScheduleRetry(v.saga, now), Some(CurrentCommand(v.saga, v.order)))
  {
    hide MapSeq, SumBy, ItemLines, PricedLines, ItemsTotal, PricedTotal, OnePricePerProduct, ItemPriced;
  }

  lemma ReloadKeepsOk(v: View, items: seq<OrderItem>)
    requires Ok(v)
    requires multiset(ItemLines(items)) == multiset(ItemLines(v.order.items))
    requires ItemsTotal(items) == ItemsTotal(v.order.items)
    requires multiset(MapSeq(items, ItemPriced())) == multiset(MapSeq(v.order.items, ItemPriced()))
    ensures Ok(After(v, v.order.(items := items), v.saga, None))
  {
    hide MapSeq, SumBy, ItemLines, PricedLines, ItemsTotal, PricedTotal, OnePricePerProduct, ItemPriced, S.UpdatesLeft;
  }

  lemma ReloadGrows(v: View, items: seq<OrderItem>)
    requires multiset(ItemLines(items)) == multiset(ItemLines(v.order.items))
    requires multiset(MapSeq(items, ItemPriced())) == multiset(MapSeq(v.order.items, ItemPriced()))
    ensures Grows(v, After(v, v.order.(items := items), v.saga, None))
  {
    hide MapSeq, ItemLines, ItemPriced, S.UpdatesLeft;
  }

  lemma ReloadStep(v: View, items: seq<OrderItem>)
    requires Ok(v) && multiset(items) == multiset(v.order.items)
    ensures ProperStep(v, v.order.(items := items), v.saga, None)
  {
    hide Ok, Legal, Grows, ItemLines, ItemsTotal, MapSeq;
    ReorderKeepsTotals(items, v.order.items);
    ReloadKeepsOk(v, items);
    ReloadGrows(v, items);
  }

  // ---- the participants' transactions, on one order ----

  /** A proper step that writes this message. */
  predicate ProperAnswer(v: View, v': View, reply: Message) {
    Ok(v') && Grows(v, v') && reply.orderId == v.order.id && Legal(v', reply)
  }

  lemma ReservationAnswered(v: View, reply: Message, leak: seq<Line>)
    requires Ok(v) && v.reservation.None? && v.leak == []
    requires ReservationOk(v.(reservation := Some(reply)))
    requires leak != [] ==> reply.StockReservationFailed?
    requires multiset(leak) <= multiset(ItemLines(v.order.items))
    ensures ProperAnswer(v, v.(reservation := Some(reply), leak := leak), reply)
  {
    hide MapSeq, SumBy, ItemLines, PricedLines, ItemsTotal, PricedTotal, OnePricePerProduct, ItemPriced, S.UpdatesLeft;
  }

  lemma ReleaseAnswered(v: View, command: Message)
    requires Ok(v) && v.release.None? && command.ReleaseStock? && Legal(v, command)
    ensures var reply := StockReleased(command.key, command.orderId, command.correlationId);
            ProperAnswer(v, v.(release := Some(reply)), reply)
  {
    hide MapSeq, SumBy, ItemLines, PricedLines, ItemsTotal, PricedTotal, OnePricePerProduct, ItemPriced, S.UpdatesLeft;
  }

  lemma PaymentAnswered(v: View, command: Message, reply: Message, row: Payment)
    requires Ok(v) && v.payment.None? && command.ProcessPayment? && Legal(v, command)
    requires reply.PaymentProcessed? || (reply.PaymentFailed? && DomainReason(reply.reason))
    requires reply.key == command.key && reply.orderId == command.orderId
    requires reply.correlationId == command.correlationId
    requires row.userId == command.userId && row.amount == command.amount
    requires row.status == Settled <==> reply.PaymentProcessed?
    requires row.transactionId == (if reply.PaymentProcessed? then Some(reply.transactionId) else None)
    ensures v.paymentRow.None?
    ensures ProperAnswer(v, v.(payment := Some(reply), paymentRow := Some(row)), reply)
  {
    hide MapSeq, SumBy, ItemLines, PricedLines, ItemsTotal, PricedTotal, OnePricePerProduct, ItemPriced, S.UpdatesLeft;
  }

  /** An outcome message is mailed at most once per kind. */
  function Mailed(v: View, event: Message): View
    requires IsOutcome(event)
  {
    if event.OrderConfirmed?
    then if v.confirmedMail then v else v.(confirmedMail := true, mails := v.mails + 1)
    else if v.cancelledMail then v else v.(cancelledMail := true, mails := v.mails + 1)
  }

  lemma MailStep(v: View, event: Message)
    requires Ok(v) && IsOutcome(event) && Legal(v, event)
    ensures Ok(Mailed(v, event)) && Grows(v, Mailed(v, event))
  {
    hide MapSeq, SumBy, ItemLines, PricedLines, ItemsTotal, PricedTotal, OnePricePerProduct, ItemPriced, S.UpdatesLeft;
    MailGrows(v, event);
    hide Grows;
  }

  lemma MailGrows(v: View, event: Message)
    requires IsOutcome(event)
    ensures Grows(v, Mailed(v, event))
  {
    hide MapSeq, ItemLines, ItemPriced, S.UpdatesLeft;
  }
}
