/** What every transaction does to the tables, written out: which rows change and to what, and
    which message or e-mail goes out. The statements name no handler. */
module Effects {
  import opened Basics
  import opened OrderEntity
  import opened Messages
  import opened Stock
  import opened Orchestrator
  import opened ProductService
  import opened PaymentService
  import opened Notification
  import opened World
  import opened Local
  import opened Invariant
  import opened OrderSteps
  import opened Ledger
  import opened Safety
  import opened Theorems
  import S = SagaEntity

  // ---- the orchestrator's tables ----

  /** The order and saga rows of `o` are each under their own key. */
  predicate HasRows(db: OrderDb, o: string) {
    o in db.orders && o in db.sagas && db.orders[o].id == o && db.sagas[o].orderId == o
  }

  /** The saga of `o` is running and waits for this step. */
  predicate Waits(db: OrderDb, o: string, step: S.Step) {
    o in db.sagas && db.sagas[o].status == S.Running && db.sagas[o].step == step
  }

  /** The order is cancelled, its saga failed for the reason, and ORDER_CANCELLED written; nothing
      else has changed. */
  predicate CancelledFor(db: OrderDb, after: OrderDb, o: string, reason: string)
    requires HasRows(db, o)
  {
    var order, saga := db.orders[o], db.sagas[o];
    after == OrderDb(
      db.orders[o := order.(status := Cancelled)],
      db.sagas[o := saga.(step := S.Failed, status := S.Aborted, lastError := Some(reason), nextRetryAt := None)],
      db.outbox + [OrderCancelled(o, order.userId, order.userEmail, saga.correlationId, reason)])
  }

  /** The order's items have the names and prices of the reservation and its total, and the payment
      command for that total is written. */
  ghost predicate ConfirmedWith(db: OrderDb, after: OrderDb, o: string, m: Message, now: int)
    requires HasRows(db, o) && m.StockReserved?
  {
    var order, saga := db.orders[o], db.sagas[o];
    && o in after.orders
    && (var items := after.orders[o].items;
        && multiset(MapSeq(items, ItemPriced())) == multiset(m.items)
        && |items| == |order.items|
        && (forall i :: 0 <= i < |items| ==> items[i].id == order.items[i].id && items[i].productId == order.items[i].productId
                                             && items[i].quantity == order.items[i].quantity)
        && after == OrderDb(
             db.orders[o := order.(status := Confirmed, total := m.total, items := items)],
             db.sagas[o := saga.(step := S.ProcessPayment, nextRetryAt := Some(now + 30_000))],
             db.outbox + [ProcessPayment(CommandKey(saga.id, ForPayment), o, saga.correlationId, order.userId, m.total)]))
  }

  /** The saga is completed and ORDER_CONFIRMED written with what the order shows. */
  predicate CompletedWith(db: OrderDb, after: OrderDb, o: string)
    requires HasRows(db, o)
  {
    var order, saga := db.orders[o], db.sagas[o];
    after == OrderDb(
      db.orders,
      db.sagas[o := saga.(step := S.Completed, status := S.Succeeded, nextRetryAt := None)],
      db.outbox + [OrderConfirmed(o, order.userId, order.userEmail, saga.correlationId, MapSeq(order.items, ItemPriced()),
                                  order.total)])
  }

  /** The saga compensates for the reason, and the release command is written for the order's lines. */
  predicate CompensatingFor(db: OrderDb, after: OrderDb, o: string, reason: string, now: int)
    requires HasRows(db, o)
  {
    var order, saga := db.orders[o], db.sagas[o];
    after == OrderDb(
      db.orders,
      db.sagas[o := saga.(step := S.ReleaseStock, lastError := Some(reason), nextRetryAt := Some(now + 30_000))],
      db.outbox + [ReleaseStock(CommandKey(saga.id, ForRelease), o, saga.correlationId, ItemLines(order.items))])
  }

  /** One more retry is counted, the clock is set to twice, four or eight times thirty seconds, and
      the current command is written again. */
  predicate RetriedAt(db: OrderDb, after: OrderDb, o: string, now: int)
    requires HasRows(db, o) && db.sagas[o].step in {S.ReserveStock, S.ProcessPayment, S.ReleaseStock}
  {
    var saga := db.sagas[o];
    var delay := if saga.retryCount == 0 then 60_000 else if saga.retryCount == 1 then 120_000 else 240_000;
    after == OrderDb(
      db.orders,
      db.sagas[o := saga.(retryCount := saga.retryCount + 1, nextRetryAt := Some(now + delay))],
      db.outbox + [CurrentCommand(saga, db.orders[o])])
  }

  /** The saga is failed; the order and the outbox are left alone. */
  predicate GivenUp(db: OrderDb, after: OrderDb, o: string)
    requires HasRows(db, o)
  {
    after == db.(sagas := db.sagas[o := db.sagas[o].(step := S.Failed, status := S.Aborted,
                                                     lastError := Some("Max retries exceeded"), nextRetryAt := None)])
  }

  // ---- the five replies ----

  lemma RefusalTables(db: OrderDb, m: Message)
    requires m.StockReservationFailed? && HasRows(db, m.orderId) && Waits(db, m.orderId, S.ReserveStock)
    requires OnStockReservationFailed(db, m).Done?
    ensures CancelledFor(db, OnStockReservationFailed(db, m).value, m.orderId, m.reason)
  {
  }

  lemma ReleasedTables(db: OrderDb, m: Message)
    requires m.StockReleased? && HasRows(db, m.orderId) && Waits(db, m.orderId, S.ReleaseStock)
    requires OnStockReleased(db, m).Done? && db.sagas[m.orderId].lastError.Some?
    ensures CancelledFor(db, OnStockReleased(db, m).value, m.orderId, db.sagas[m.orderId].lastError.value)
  {
  }

  lemma CompletedTables(db: OrderDb, m: Message, now: int)
    requires m.PaymentProcessed? && HasRows(db, m.orderId) && Waits(db, m.orderId, S.ProcessPayment)
    requires OnPaymentProcessed(db, m, now).Done?
    ensures CompletedWith(db, OnPaymentProcessed(db, m, now).value, m.orderId)
  {
    hide MapSeq;
  }

  lemma DeclinedTables(db: OrderDb, m: Message, now: int)
    requires m.PaymentFailed? && HasRows(db, m.orderId) && Waits(db, m.orderId, S.ProcessPayment)
    requires OnPaymentFailed(db, m, now).Done?
    ensures CompensatingFor(db, OnPaymentFailed(db, m, now).value, m.orderId, m.reason, now)
  {
    hide MapSeq, ItemLines;
  }

  lemma ConfirmedTables(db: OrderDb, m: Message, now: int)
    requires m.StockReserved? && HasRows(db, m.orderId) && Waits(db, m.orderId, S.ReserveStock)
    requires db.orders[m.orderId].status == Pending && OnePricePerProduct(m.items) && m.total == PricedTotal(m.items)
    requires multiset(ItemLines(db.orders[m.orderId].items)) == multiset(PricedLines(m.items))
    requires OnStockReserved(db, m, now).Done?
    ensures ConfirmedWith(db, OnStockReserved(db, m, now).value, m.orderId, m, now)
  {
    hide MapSeq, ItemLines, PricedLines, OnePricePerProduct, PricedTotal, ItemsTotal, ItemPriced;
    ConfirmPricesEveryItem(db.orders[m.orderId], m.items);
  }

  lemma RowsOf(w: World, o: string)
    requires Inv(w) && o in w.order.sagas
    ensures HasRows(w.order, o)
  {
    hide OrdersOk, MessagesLegal, Anchored, PublishedWereWritten;
  }

  /** A published STOCK_RESERVATION_FAILED for a saga that waits for stock cancels the order with its
      reason. */
  lemma RefusalCancels(w: World, m: Message, now: int, txn: string)
    requires Inv(w) && m in w.network && m.StockReservationFailed? && Waits(w.order, m.orderId, S.ReserveStock)
    ensures HasRows(w.order, m.orderId)
    ensures var w' := Receive(w, m, now, txn);
            w' == w.(order := w'.order) && CancelledFor(w.order, w'.order, m.orderId, m.reason)
  {
    hide Inv, Keeps, OnStockReservationFailed, CancelledFor;
    RowsOf(w, m.orderId);
    ReservationFailedKeeps(w, m);
    RefusalTables(w.order, m);
  }

  lemma DeclineIsOnRecord(v: View)
    requires Ok(v) && S.CanHandle(v.saga, S.ReleaseStock)
    ensures Declined(v) && v.saga.lastError == Some(v.payment.value.reason)
  {
    hide SumBy, MapSeq, ItemLines, PricedLines, ItemsTotal, OnePricePerProduct, PricedTotal;
  }

  /** A published STOCK_RELEASED for a saga that waits for it cancels the order with the reason of
      its declined payment. */
  lemma ReleaseCancels(w: World, m: Message, now: int, txn: string)
    requires Inv(w) && m in w.network && m.StockReleased? && Waits(w.order, m.orderId, S.ReleaseStock)
    ensures HasRows(w.order, m.orderId) && PaymentWasDeclined(w, m.orderId)
    ensures var w' := Receive(w, m, now, txn);
            && w' == w.(order := w'.order)
            && CancelledFor(w.order, w'.order, m.orderId, PaymentAnswer(w, m.orderId).value.reason)
  {
    hide Inv, Keeps, OnStockReleased, CancelledFor, Ok, ViewOf;
    RowsOf(w, m.orderId);
    OrderIsOk(w, m.orderId);
    TablesAreTheView(w, m.orderId);
    DeclineIsOnRecord(ViewOf(w, m.orderId));
    StockReleasedKeeps(w, m);
    ReleasedTables(w.order, m);
  }

  lemma PricedLinesOfOrder(v: View)
    requires Ok(v) && v.order.status == Confirmed
    ensures Reserved(v) && multiset(ItemLines(v.order.items)) == multiset(PricedLines(v.reservation.value.items))
  {
    hide SumBy, MapSeq, ItemLines, PricedLines, ItemsTotal, OnePricePerProduct, PricedTotal;
  }

  lemma AwaitingPaymentIsConfirmed(v: View)
    requires Ok(v) && S.CanHandle(v.saga, S.ProcessPayment)
    ensures v.order.status == Confirmed
  {
    hide SumBy, MapSeq, ItemLines, PricedLines, ItemsTotal, OnePricePerProduct, PricedTotal;
  }

  /** A published PAYMENT_FAILED for a saga that waits for payment starts the compensation and writes
      the release command, for exactly what was reserved. */
  lemma DeclineAsksForRelease(w: World, m: Message, now: int, txn: string)
    requires Inv(w) && m in w.network && m.PaymentFailed? && Waits(w.order, m.orderId, S.ProcessPayment)
    ensures HasRows(w.order, m.orderId) && StockWasReserved(w, m.orderId)
    ensures multiset(ItemLines(w.order.orders[m.orderId].items)) ==
            multiset(PricedLines(StockReply(w, m.orderId, ForReserve).value.items))
    ensures var w' := Receive(w, m, now, txn);
            w' == w.(order := w'.order) && CompensatingFor(w.order, w'.order, m.orderId, m.reason, now)
  {
    hide Inv, Keeps, OnPaymentFailed, CompensatingFor, Ok, ViewOf, ItemLines, PricedLines;
    RowsOf(w, m.orderId);
    OrderIsOk(w, m.orderId);
    TablesAreTheView(w, m.orderId);
    AwaitingPaymentIsConfirmed(ViewOf(w, m.orderId));
    PricedLinesOfOrder(ViewOf(w, m.orderId));
    PaymentFailedKeeps(w, m, now);
    DeclinedTables(w.order, m, now);
  }

  /** A published PAYMENT_PROCESSED for a saga that waits for payment completes it and writes
      ORDER_CONFIRMED. */
  lemma PaymentCompletes(w: World, m: Message, now: int, txn: string)
    requires Inv(w) && m in w.network && m.PaymentProcessed? && Waits(w.order, m.orderId, S.ProcessPayment)
    ensures HasRows(w.order, m.orderId)
    ensures var w' := Receive(w, m, now, txn);
            w' == w.(order := w'.order) && CompletedWith(w.order, w'.order, m.orderId)
  {
    hide Inv, Keeps, OnPaymentProcessed, CompletedWith;
    RowsOf(w, m.orderId);
    PaymentProcessedKeeps(w, m, now);
    CompletedTables(w.order, m, now);
  }

  lemma ReservationMatches(v: View, m: Message)
    requires Ok(v) && S.CanHandle(v.saga, S.ReserveStock) && v.reservation == Some(m) && m.StockReserved?
    ensures v.order.status == Pending && OnePricePerProduct(m.items) && m.total == PricedTotal(m.items)
    ensures multiset(ItemLines(v.order.items)) == multiset(PricedLines(m.items))
  {
    hide SumBy, MapSeq, ItemLines, PricedLines, ItemsTotal, OnePricePerProduct, PricedTotal;
  }

  /** A published STOCK_RESERVED for a saga that waits for stock confirms the order at the reserved
      prices and writes the payment command for their total. */
  lemma ReservationConfirms(w: World, m: Message, now: int, txn: string)
    requires Inv(w) && m in w.network && m.StockReserved? && Waits(w.order, m.orderId, S.ReserveStock)
    ensures HasRows(w.order, m.orderId)
    ensures var w' := Receive(w, m, now, txn);
            w' == w.(order := w'.order) && ConfirmedWith(w.order, w'.order, m.orderId, m, now)
  {
    hide Inv, Keeps, OnStockReserved, ConfirmedWith, Ok, ViewOf, ItemLines, PricedLines, OnePricePerProduct, PricedTotal;
    RowsOf(w, m.orderId);
    OrderIsOk(w, m.orderId);
    ReplyIsStored(w, m);
    ReservationMatches(ViewOf(w, m.orderId), m);
    StockReservedKeeps(w, m, now);
    ConfirmedTables(w.order, m, now);
  }

  /** The step a reply answers. */
  function StepOf(m: Message): S.Step
    requires IsReply(m)
  {
    if m.StockReserved? || m.StockReservationFailed? then S.ReserveStock
    else if m.StockReleased? then S.ReleaseStock
    else S.ProcessPayment
  }

  /** A reply that no saga waits for changes nothing at all. */
  lemma UnexpectedReplyIsIgnored(w: World, m: Message, now: int, txn: string)
    requires IsReply(m) && !Waits(w.order, m.orderId, StepOf(m))
    ensures Receive(w, m, now, txn) == w
  {
    hide MapSeq, ItemLines;
  }

  // ---- the poller ----

  lemma VisitTables(db: OrderDb, o: string, now: int)
    requires HasRows(db, o) && db.sagas[o].status == S.Running && PollOne(db, o, now).Done?
    requires db.sagas[o].step in {S.ReserveStock, S.ProcessPayment, S.ReleaseStock}
    ensures db.sagas[o].retryCount < 3 ==> RetriedAt(db, PollOne(db, o, now).value, o, now)
    ensures db.sagas[o].retryCount >= 3 ==> GivenUp(db, PollOne(db, o, now).value, o)
  {
    hide MapSeq, ItemLines;
    assert Pow2(1) == 2 && Pow2(2) == 4 && Pow2(3) == 8;
  }

  lemma RunningStep(v: View)
    requires Ok(v) && v.saga.status == S.Running
    ensures v.saga.step in {S.ReserveStock, S.ProcessPayment, S.ReleaseStock}
  {
    hide SumBy, MapSeq, ItemLines, PricedLines, ItemsTotal, OnePricePerProduct, PricedTotal;
  }

  /** A visit to a running saga retries it three times, each time sending the command of the step it
      is in, and gives it up the fourth time; a visit to any other saga changes nothing. */
  lemma VisitRetriesOrGivesUp(w: World, o: string, now: int)
    requires Inv(w)
    ensures var w' := Happen(w, Polled(o, now));
            if o in w.order.sagas && w.order.sagas[o].status == S.Running then
              && HasRows(w.order, o)
              && w.order.sagas[o].step in {S.ReserveStock, S.ProcessPayment, S.ReleaseStock}
              && w' == w.(order := w'.order)
              && (w.order.sagas[o].retryCount < 3 ==> RetriedAt(w.order, w'.order, o, now))
              && (w.order.sagas[o].retryCount >= 3 ==> GivenUp(w.order, w'.order, o))
            else w' == w
  {
    hide Inv, Keeps, Ok, ViewOf, RetriedAt, GivenUp, Receive, CreateOrder;
    if o in w.order.sagas && w.order.sagas[o].status == S.Running {
      hide PollOne;
      RowsOf(w, o);
      OrderIsOk(w, o);
      RunningStep(ViewOf(w, o));
      PolledKeeps(w, o, now);
      VisitTables(w.order, o, now);
    }
  }

  // ---- placing an order ----

  /** Placing an order writes the pending order without names and prices, its saga, due in thirty
      seconds, and the reserve command for the ordered lines; nothing else. */
  lemma OrderingWrites(w: World, e: Event)
    requires e.Ordered? && Enabled(w, e)
    ensures var w', o := Happen(w, e), e.orderId;
            && o in w'.order.orders
            && (var items := w'.order.orders[o].items;
                && ItemLines(items) == e.lines
                && (forall i :: 0 <= i < |items| ==> items[i].id == e.itemIds[i] && items[i].productName == ""
                                                     && items[i].unitPrice == 0)
                && w' == w.(order := OrderDb(
                     w.order.orders[o := Order(o, e.userId, e.userEmail, Pending, 0, items)],
                     w.order.sagas[o := S.Saga(e.sagaId, o, e.correlationId, S.ReserveStock, S.Running, 0, None,
                                               Some(e.now + 30_000))],
                     w.order.outbox + [ReserveStock(CommandKey(e.sagaId, ForReserve), o, e.correlationId, e.lines)])))
  {
    hide Receive, PollOne, MapSeq;
    assert |Happen(w, e).order.orders[e.orderId].items| == |e.lines|;
  }

  // ---- the participants ----

  /** A command seen before changes nothing and queues its stored reply again. */
  lemma KnownCommandRepeats(w: World, m: Message, now: int, txn: string)
    ensures (m.ReserveStock? || m.ReleaseStock?) && m.key in w.product.keys ==>
              Receive(w, m, now, txn) == w.(product := w.product.(outbox := w.product.outbox + [w.product.keys[m.key]]))
    ensures m.ProcessPayment? && m.key in w.payment.keys ==>
              Receive(w, m, now, txn) == w.(payment := w.payment.(outbox := w.payment.outbox + [w.payment.keys[m.key]]))
  {
    hide Reserve, ReleaseAll, MapSeq, ItemLines;
  }

  /** A new reserve command whose demand fits takes all of it and is answered with its lines at the
      table's names and prices, and their total. One whose demand does not fit takes the lines before
      the first that fails and is answered with that line's error. */
  lemma ReserveIsAnswered(w: World, m: Message, now: int, txn: string) returns (reply: Message, n: nat)
    requires m.ReserveStock? && m.key !in w.product.keys
    ensures n <= |m.lines| && (n == |m.lines| <==> Fits(w.product.products, m.lines))
    ensures var products := Receive(w, m, now, txn).product.products;
            && Receive(w, m, now, txn).product == ProductDb(products, w.product.keys[m.key := reply], w.product.outbox + [reply])
            && TakenAway(w.product.products, products, m.lines[..n])
            && (n < |m.lines| ==>
                  var p, wanted := m.lines[n].productId, m.lines[n].quantity;
                  var there := p in products && products[p].isActive;
                  && (there ==> products[p].stock < wanted)
                  && reply == StockReservationFailed(m.key, m.orderId, m.correlationId,
                       if !there then "Product " + p + " not found"
                       else "Insufficient stock for product " + p + ": requested " + Show(wanted) + ", available "
                            + Show(products[p].stock)))
    ensures n == |m.lines| ==>
              && reply.StockReserved? && reply.key == m.key && reply.orderId == m.orderId
              && reply.correlationId == m.correlationId
              && PricedLines(reply.items) == m.lines
              && reply.total == SumBy(reply.items, PricedCost())
              && forall i :: 0 <= i < |reply.items| ==>
                   && reply.items[i].productId in w.product.products
                   && reply.items[i].name == w.product.products[reply.items[i].productId].name
                   && reply.items[i].unitPrice == w.product.products[reply.items[i].productId].price
  {
    hide Reserve, SumBy, PricedLines, Fits, Show;
    var attempt := Reserve(w.product.products, m.lines);
    reply, n := ReserveReply(m, attempt), |attempt.taken|;
    ReserveEffect(w.product.products, m.lines);
    ReserveSucceedsIff(w.product.products, m.lines);
    if n < |m.lines| {
      RefusalIsOfNextLine(w.product.products, m.lines);
    } else {
      assert m.lines[..n] == m.lines;
    }
  }

  /** A new payment command debits a wallet that holds enough, settles the row and says so under the
      same transaction id; otherwise it leaves the wallets alone and the row unsettled. */
  lemma PaymentIsAnswered(w: World, m: Message, now: int, txn: string)
    requires m.ProcessPayment? && m.key !in w.payment.keys && m.orderId !in w.payment.payments
    ensures var w', u := Receive(w, m, now, txn), m.userId;
            && w' == w.(payment := w'.payment)
            && w'.payment ==
               (if u in w.payment.wallets && m.amount <= w.payment.wallets[u] then
                  var reply := PaymentProcessed(m.key, m.orderId, m.correlationId, txn);
                  PaymentDb(w.payment.wallets[u := w.payment.wallets[u] - m.amount],
                            w.payment.payments[m.orderId := Payment(u, m.amount, Settled, Some(txn))],
                            w.payment.keys[m.key := reply], w.payment.outbox + [reply])
                else
                  var available := if u in w.payment.wallets then w.payment.wallets[u] else 0;
                  var reply := PaymentFailed(m.key, m.orderId, m.correlationId,
                                             "Insufficient funds: available " + Show(available) + ", required " + Show(m.amount));
                  PaymentDb(w.payment.wallets,
                            w.payment.payments[m.orderId := Payment(u, m.amount, Unsettled, None)],
                            w.payment.keys[m.key := reply], w.payment.outbox + [reply]))
  {
    hide Reserve, ReleaseAll, Show;
  }

  /** A new release command puts its lines back and says so. */
  lemma ReleaseIsAnswered(w: World, m: Message, now: int, txn: string)
    requires m.ReleaseStock? && m.key !in w.product.keys
    ensures var w' := Receive(w, m, now, txn);
            && TakenAway(w'.product.products, w.product.products, m.lines)
            && w' == w.(product := ProductDb(w'.product.products,
                                             w.product.keys[m.key := StockReleased(m.key, m.orderId, m.correlationId)],
                                             w.product.outbox + [StockReleased(m.key, m.orderId, m.correlationId)]))
  {
    hide ReleaseAll, Reserve;
    ReleaseEffect(w.product.products, m.lines);
  }

  // ---- e-mails ----

  /** The first delivery of an outcome sends exactly the e-mail of that outcome; any other sends
      nothing. */
  lemma OutcomeIsMailed(w: World, m: Message, now: int, txn: string)
    requires IsOutcome(m)
    ensures var key := LogKey(m.orderId, if m.OrderConfirmed? then ConfirmedEvent else CancelledEvent);
            Receive(w, m, now, txn) ==
            (if key in w.notify.log then w
             else w.(notify := NotifyDb(w.notify.log + {key}, w.notify.emails + [key])))
  {
  }

  lemma MailsOfView(v: View)
    requires Ok(v)
    ensures v.confirmedMail ==> v.saga.status == S.Succeeded
    ensures v.cancelledMail ==> v.order.status == Cancelled
  {
    hide SumBy, MapSeq, ItemLines, PricedLines, ItemsTotal, OnePricePerProduct, PricedTotal;
  }

  /** In every state of every run, an "order confirmed" e-mail was sent only for an order whose saga
      has completed, and an "order cancelled" e-mail only for a cancelled order. */
  lemma MailsAreTrue(ws: seq<World>, i: nat, o: string)
    requires Run(ws) && i < |ws|
    ensures LogKey(o, ConfirmedEvent) in ws[i].notify.emails ==>
              o in ws[i].order.sagas && ws[i].order.sagas[o].status == S.Succeeded && OrderIs(ws[i], o, Confirmed)
    ensures LogKey(o, CancelledEvent) in ws[i].notify.emails ==> OrderIs(ws[i], o, Cancelled)
  {
    hide Next, Initial, OrdersOk, MessagesLegal, StockBalanced, MoneyBalanced, Ok;
    RunIsSafe(ws, i);
    if LogKey(o, ConfirmedEvent) in ws[i].notify.emails || LogKey(o, CancelledEvent) in ws[i].notify.emails {
      AnyOrder(ws, i, i, o);
      MailsOfView(ViewOf(ws[i], o));
      JointInvariant(ws, i, o);
    }
  }

  // ---- the poller's whole round ----

  /** A visit as the poller's round makes it: retried or given up. */
  predicate VisitedOnce(saga: S.Saga, after: S.Saga, now: int) {
    if saga.retryCount < 3 then
      after == saga.(retryCount := saga.retryCount + 1,
                     nextRetryAt := Some(now + (if saga.retryCount == 0 then 60_000
                                                else if saga.retryCount == 1 then 120_000 else 240_000)))
    else after == saga.(step := S.Failed, status := S.Aborted, lastError := Some("Max retries exceeded"), nextRetryAt := None)
  }

  /** The rows of the visited sagas are in order. */
  predicate AllWaiting(db: OrderDb, os: seq<string>) {
    forall i :: 0 <= i < |os| ==>
      HasRows(db, os[i]) && db.sagas[os[i]].status == S.Running
      && db.sagas[os[i]].step in {S.ReserveStock, S.ProcessPayment, S.ReleaseStock}
  }

  /** The commands sent by a round: one for every visited saga that still has retries. */
  function ResentBy(db: OrderDb, os: seq<string>): seq<Message>
    requires AllWaiting(db, os)
    decreases |os|
  {
    if os == [] then []
    else (if db.sagas[os[0]].retryCount < 3 then [CurrentCommand(db.sagas[os[0]], db.orders[os[0]])] else [])
         + ResentBy(db, os[1..])
  }

  lemma {:induction false} SameResent(db: OrderDb, after: OrderDb, os: seq<string>)
    requires AllWaiting(db, os) && after.orders == db.orders
    requires forall i :: 0 <= i < |os| ==> os[i] in after.sagas && after.sagas[os[i]] == db.sagas[os[i]]
    ensures AllWaiting(after, os) && ResentBy(after, os) == ResentBy(db, os)
    decreases |os|
  {
    if os != [] {
      SameResent(db, after, os[1..]);
    }
  }

  lemma OneOfTheRound(db: OrderDb, o: string, now: int)
    requires HasRows(db, o) && db.sagas[o].status == S.Running
    requires db.sagas[o].step in {S.ReserveStock, S.ProcessPayment, S.ReleaseStock}
    ensures var after := Commit(PollOne(db, o, now), db);
            && after.orders == db.orders && o in after.sagas && after.sagas == db.sagas[o := after.sagas[o]]
            && VisitedOnce(db.sagas[o], after.sagas[o], now)
            && after.outbox == db.outbox + (if db.sagas[o].retryCount < 3 then [CurrentCommand(db.sagas[o], db.orders[o])] else [])
  {
    hide CurrentCommand, MapSeq, ItemLines;
    assert PollOne(db, o, now).Done?;
    hide PollOne;
    VisitTables(db, o, now);
  }

  /** The sagas of a round: each of these visited once, all others as they were. */
  ghost predicate SagasVisited(before: map<string, S.Saga>, after: map<string, S.Saga>, os: seq<string>, now: int)
    requires forall i :: 0 <= i < |os| ==> os[i] in before
  {
    && after.Keys == before.Keys
    && (forall i :: 0 <= i < |os| ==> VisitedOnce(before[os[i]], after[os[i]], now))
    && (forall o :: o in before && o !in os ==> after[o] == before[o])
  }

  lemma SagasVisitedNext(before: map<string, S.Saga>, saga: S.Saga, after: map<string, S.Saga>, os: seq<string>, now: int)
    requires forall i :: 0 <= i < |os| ==> os[i] in before
    requires os != [] && forall i, j :: 0 <= i < j < |os| ==> os[i] != os[j]
    requires VisitedOnce(before[os[0]], saga, now)
    requires SagasVisited(before[os[0] := saga], after, os[1..], now)
    ensures SagasVisited(before, after, os, now)
  {
    hide VisitedOnce;
    var rest := os[1..];
    assert os == [os[0]] + rest;
    assert os[0] !in rest;
    forall i | 0 <= i < |os|
      ensures VisitedOnce(before[os[i]], after[os[i]], now)
    {
      if i > 0 {
        assert rest[i - 1] == os[i];
      }
    }
  }

  /** What a round over these sagas leaves. */
  ghost predicate RoundMade(db: OrderDb, after: OrderDb, os: seq<string>, now: int)
    requires AllWaiting(db, os)
  {
    && after.orders == db.orders
    && SagasVisited(db.sagas, after.sagas, os, now)
    && after.outbox == db.outbox + ResentBy(db, os)
  }

  lemma RoundGoesOn(db: OrderDb, next: OrderDb, after: OrderDb, os: seq<string>, now: int)
    requires AllWaiting(db, os) && os != [] && forall i, j :: 0 <= i < j < |os| ==> os[i] != os[j]
    requires next.orders == db.orders && os[0] in next.sagas && next.sagas == db.sagas[os[0] := next.sagas[os[0]]]
    requires VisitedOnce(db.sagas[os[0]], next.sagas[os[0]], now)
    requires next.outbox == db.outbox + ResentBy(db, os[..1])
    requires AllWaiting(next, os[1..]) && ResentBy(next, os[1..]) == ResentBy(db, os[1..])
    requires RoundMade(next, after, os[1..], now)
    ensures RoundMade(db, after, os, now)
  {
    hide VisitedOnce, ResentBy, SagasVisited;
    SagasVisitedNext(db.sagas, next.sagas[os[0]], after.sagas, os, now);
    ResentSplits(db, os);
    AppendAssociates(db.outbox, ResentBy(db, os[..1]), ResentBy(db, os[1..]));
  }

  lemma ResentSplits(db: OrderDb, os: seq<string>)
    requires AllWaiting(db, os) && os != []
    ensures ResentBy(db, os) == ResentBy(db, os[..1]) + ResentBy(db, os[1..])
  {
    hide CurrentCommand;
    assert os[..1][1..] == [];
  }

  /** A round over distinct running sagas visits each of them once, leaves all other sagas and every
      order alone, and sends exactly one command for each saga that still has retries. */
  lemma {:induction false} RoundVisitsEach(db: OrderDb, os: seq<string>, now: int)
    requires AllWaiting(db, os) && forall i, j :: 0 <= i < j < |os| ==> os[i] != os[j]
    ensures RoundMade(db, PollAll(db, os, now), os, now)
    decreases |os|
  {
    if os != [] {
      hide VisitedOnce, CurrentCommand, PollOne, RoundMade;
      var next := Commit(PollOne(db, os[0], now), db);
      OneOfTheRound(db, os[0], now);
      SameResent(db, next, os[1..]);
      RoundVisitsEach(next, os[1..], now);
      assert os[..1][1..] == [];
      RoundGoesOn(db, next, PollAll(db, os, now), os, now);
    }
  }

  /** The sagas that `FindStuck` finds are such as a round is about. */
  lemma StuckAreWaiting(w: World, os: seq<string>, now: int)
    requires Inv(w) && forall i :: 0 <= i < |os| ==> Stuck(w.order, os[i], now)
    ensures AllWaiting(w.order, os)
  {
    hide Inv, Ok, ViewOf;
    forall i | 0 <= i < |os|
      ensures HasRows(w.order, os[i]) && w.order.sagas[os[i]].status == S.Running
      ensures w.order.sagas[os[i]].step in {S.ReserveStock, S.ProcessPayment, S.ReleaseStock}
    {
      assert Stuck(w.order, os[i], now);
      RowsOf(w, os[i]);
      OrderIsOk(w, os[i]);
      RunningStep(ViewOf(w, os[i]));
    }
  }
}
