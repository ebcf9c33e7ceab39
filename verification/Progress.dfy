/** The happy path is open: from every reachable state in which an order still waits for its
    stock, the stock is there and the wallet holds enough, eight events complete the saga. */
module Progress {
  import opened Basics
  import opened OrderEntity
  import opened Messages
  import opened Stock
  import opened Orchestrator
  import opened ProductService
  import opened PaymentService
  import Notification
  import opened World
  import opened Local
  import opened Invariant
  import opened OrderSteps
  import opened ParticipantSteps
  import opened Ledger
  import opened Safety
  import opened Theorems
  import opened Effects
  import S = SagaEntity

  /** Publish a written message and deliver it. */
  function Pass(w: World, m: Message, now: int, txn: string): World
    requires Written(w, m)
  {
    Receive(Happen(w, Published(m)), m, now, txn)
  }

  lemma PassIsTwoEvents(w: World, m: Message, now: int, txn: string)
    requires Safe(w) && Written(w, m)
    ensures Enabled(w, Published(m)) && Enabled(Happen(w, Published(m)), Delivered(m, now, txn))
    ensures Pass(w, m, now, txn) == Happen(Happen(w, Published(m)), Delivered(m, now, txn))
    ensures Safe(Pass(w, m, now, txn))
  {
    hide Safe, Receive;
    EventIsSafe(w, Published(m));
    EventIsSafe(Happen(w, Published(m)), Delivered(m, now, txn));
  }

  /** The saga waits for its stock and its command has not been answered. */
  predicate AwaitsStock(w: World, o: string, m: Message) {
    && o in w.order.orders && Waits(w.order, o, S.ReserveStock)
    && m.ReserveStock? && m.orderId == o && Written(w, m)
    && m.key !in w.product.keys
  }

  /** What the reservation would cost now. */
  function Price(w: World, m: Message): Money
    requires m.ReserveStock?
  {
    PricedTotal(Reserve(w.product.products, m.lines).taken)
  }

  /** Publishing changes the network only, so the message is then received in the same tables. */
  lemma PassReceives(w: World, m: Message, now: int, txn: string) returns (published: World)
    requires Safe(w) && Written(w, m)
    ensures published == w.(network := w.network + {m}) && Safe(published) && m in published.network
    ensures Pass(w, m, now, txn) == Receive(published, m, now, txn) && Safe(Pass(w, m, now, txn))
  {
    hide Safe, Receive;
    PassIsTwoEvents(w, m, now, txn);
    EventIsSafe(w, Published(m));
    published := Happen(w, Published(m));
  }

  // ---- one message passed ----

  /** Nothing of these services has changed. */
  predicate SameElsewhere(w: World, w': World) {
    w'.product == w.product && w'.payment == w.payment
  }

  lemma StockIsReserved(w: World, o: string, m: Message) returns (reply: Message)
    requires Safe(w) && AwaitsStock(w, o, m) && Fits(w.product.products, m.lines)
    ensures Safe(Pass(w, m, 0, ""))
    ensures var w' := Pass(w, m, 0, "");
            && reply.StockReserved? && reply.orderId == o && reply.total == Price(w, m) && PricedLines(reply.items) == m.lines
            && Written(w', reply)
            && w'.order == w.order && w'.payment == w.payment
            && w'.product.keys == w.product.keys[m.key := reply]
            && TakenAway(w.product.products, w'.product.products, m.lines)
  {
    hide Safe, Reserve, PricedTotal, PricedLines, Fits;
    var w0 := PassReceives(w, m, 0, "");
    ReserveSucceedsIff(w.product.products, m.lines);
    ReserveEffect(w.product.products, m.lines);
    assert m.lines[..|m.lines|] == m.lines;
    reply := ReserveReply(m, Reserve(w.product.products, m.lines));
    assert reply in Pass(w, m, 0, "").product.outbox;
  }

  lemma StockIsRefused(w: World, o: string, m: Message) returns (reply: Message)
    requires Safe(w) && AwaitsStock(w, o, m) && !Fits(w.product.products, m.lines)
    ensures Safe(Pass(w, m, 0, ""))
    ensures var w' := Pass(w, m, 0, "");
            && reply.StockReservationFailed? && reply.orderId == o && Written(w', reply)
            && w'.order == w.order && w'.payment == w.payment
  {
    hide Safe, Reserve, Fits;
    var w0 := PassReceives(w, m, 0, "");
    var n;
    reply, n := ReserveIsAnswered(w0, m, 0, "");
    assert reply in Pass(w, m, 0, "").product.outbox;
  }

  lemma PaymentIsRequested(w: World, o: string, reply: Message, now: int) returns (command: Message)
    requires Safe(w) && Waits(w.order, o, S.ReserveStock)
    requires reply.StockReserved? && reply.orderId == o && Written(w, reply)
    ensures Safe(Pass(w, reply, now, ""))
    ensures var w' := Pass(w, reply, now, "");
            && HasRows(w.order, o) && HasRows(w'.order, o) && SameElsewhere(w, w')
            && command.ProcessPayment? && command.orderId == o && Written(w', command)
            && command.key == CommandKey(w.order.sagas[o].id, ForPayment)
            && command.userId == w.order.orders[o].userId && command.amount == reply.total
            && Waits(w'.order, o, S.ProcessPayment) && w'.order.sagas[o].id == w.order.sagas[o].id
            && OrderIs(w', o, Confirmed)
  {
    hide Inv, StockBalanced, MoneyBalanced, Receive, Pass;
    var w0 := PassReceives(w, reply, now, "");
    ReservationConfirms(w0, reply, now, "");
    var saga := w.order.sagas[o];
    command := ProcessPayment(CommandKey(saga.id, ForPayment), o, saga.correlationId, w.order.orders[o].userId, reply.total);
    assert command in Pass(w, reply, now, "").order.outbox;
  }

  /** The wallet of the user of a payment command holds its amount. */
  predicate Affordable(w: World, command: Message)
    requires command.ProcessPayment?
  {
    command.userId in w.payment.wallets && command.amount <= w.payment.wallets[command.userId]
  }

  lemma PaymentIsSettled(w: World, o: string, command: Message, txn: string) returns (reply: Message)
    requires Safe(w) && command.ProcessPayment? && command.orderId == o && Written(w, command)
    requires command.key !in w.payment.keys
    ensures Safe(Pass(w, command, 0, txn))
    ensures var w' := Pass(w, command, 0, txn);
            && reply.orderId == o && Written(w', reply)
            && w'.order == w.order && w'.product == w.product
            && (Affordable(w, command) ==> reply.PaymentProcessed?)
            && (!Affordable(w, command) ==> reply.PaymentFailed? && w'.payment.wallets == w.payment.wallets)
  {
    hide Inv, StockBalanced, MoneyBalanced, Receive, Pass;
    var w0 := PassReceives(w, command, 0, txn);
    PaymentNeverThrows(w0, command, txn);
    PaymentIsAnswered(w0, command, 0, txn);
    var w' := Pass(w, command, 0, txn);
    assert w'.payment.outbox[..|w.payment.outbox|] == w.payment.outbox;
    reply := w'.payment.outbox[|w.payment.outbox|];
  }

  lemma OrderIsConfirmed(w: World, o: string, reply: Message, now: int) returns (event: Message)
    requires Safe(w) && Waits(w.order, o, S.ProcessPayment)
    requires reply.PaymentProcessed? && reply.orderId == o && Written(w, reply)
    ensures Safe(Pass(w, reply, now, ""))
    ensures var w' := Pass(w, reply, now, "");
            && HasRows(w.order, o) && SameElsewhere(w, w')
            && CompletedWith(w.order, w'.order, o)
            && event.OrderConfirmed? && event.orderId == o && event in w'.order.outbox
            && o in w'.order.sagas && w'.order.sagas[o].status == S.Succeeded
  {
    hide Inv, StockBalanced, MoneyBalanced, Receive, Pass, MapSeq;
    var w0 := PassReceives(w, reply, now, "");
    PaymentCompletes(w0, reply, now, "");
    var w' := Pass(w, reply, now, "");
    event := w'.order.outbox[|w.order.outbox|];
  }

  lemma ReleaseIsRequested(w: World, o: string, reply: Message, now: int) returns (command: Message)
    requires Safe(w) && Waits(w.order, o, S.ProcessPayment)
    requires reply.PaymentFailed? && reply.orderId == o && Written(w, reply)
    ensures Safe(Pass(w, reply, now, ""))
    ensures var w' := Pass(w, reply, now, "");
            && HasRows(w.order, o) && HasRows(w'.order, o) && SameElsewhere(w, w')
            && command.ReleaseStock? && command.orderId == o && Written(w', command)
            && command.key == CommandKey(w.order.sagas[o].id, ForRelease)
            && StockWasReserved(w, o)
            && multiset(command.lines) == multiset(PricedLines(StockReply(w, o, ForReserve).value.items))
            && Waits(w'.order, o, S.ReleaseStock) && w'.order.sagas[o].lastError == Some(reply.reason)
            && w'.order.orders == w.order.orders
  {
    hide Inv, StockBalanced, MoneyBalanced, Receive, Pass, ItemLines, PricedLines;
    var w0 := PassReceives(w, reply, now, "");
    DeclineAsksForRelease(w0, reply, now, "");
    var w' := Pass(w, reply, now, "");
    command := w'.order.outbox[|w.order.outbox|];
  }

  lemma StockIsReleased(w: World, o: string, command: Message) returns (reply: Message)
    requires Safe(w) && command.ReleaseStock? && command.orderId == o && Written(w, command)
    requires command.key !in w.product.keys
    ensures Safe(Pass(w, command, 0, ""))
    ensures var w' := Pass(w, command, 0, "");
            && reply.StockReleased? && reply.orderId == o && Written(w', reply)
            && TakenAway(w'.product.products, w.product.products, command.lines)
            && w'.order == w.order && w'.payment == w.payment
  {
    hide Inv, StockBalanced, MoneyBalanced, Receive, Pass, TakenAway;
    var w0 := PassReceives(w, command, 0, "");
    ReleaseIsAnswered(w0, command, 0, "");
    reply := StockReleased(command.key, o, command.correlationId);
    assert reply in Pass(w, command, 0, "").product.outbox;
  }

  /** Whether the stock was refused or released, the order is cancelled for the reason on record. */
  lemma OrderIsCancelled(w: World, o: string, reply: Message, now: int) returns (reason: string)
    requires Safe(w) && reply.orderId == o && Written(w, reply)
    requires (reply.StockReservationFailed? && Waits(w.order, o, S.ReserveStock))
          || (reply.StockReleased? && Waits(w.order, o, S.ReleaseStock))
    ensures Safe(Pass(w, reply, now, ""))
    ensures var w' := Pass(w, reply, now, "");
            HasRows(w.order, o) && SameElsewhere(w, w') && CancelledFor(w.order, w'.order, o, reason)
    ensures reply.StockReservationFailed? ==> reason == reply.reason
    ensures reply.StockReleased? ==> w.order.sagas[o].lastError == Some(reason)
  {
    hide Wired, OrdersOk, MessagesLegal, StockBalanced, MoneyBalanced, Receive, Pass, CancelledFor, Ok, ViewOf;
    var w0 := PassReceives(w, reply, now, "");
    if reply.StockReservationFailed? {
      RefusalCancels(w0, reply, now, "");
      reason := reply.reason;
    } else {
      ReleaseCancels(w0, reply, now, "");
      reason := PaymentAnswer(w0, o).value.reason;
      OrderIsOk(w0, o);
      TablesAreTheView(w0, o);
      DeclineIsOnRecord(ViewOf(w0, o));
    }
  }

  lemma UnpaidIsUnanswered(v: View, command: Message)
    requires Ok(v) && command.ProcessPayment? && Legal(v, command) && v.paymentRow.None?
    ensures v.payment.None? && command.key == CommandKey(v.saga.id, ForPayment)
  {
    hide SumBy, MapSeq, ItemLines, PricedLines, ItemsTotal, OnePricePerProduct, PricedTotal;
  }

  /** A payment command that nobody has answered: its key is still free. */
  lemma PaymentKeyIsFree(w: World, o: string, command: Message)
    requires Inv(w) && Written(w, command) && command.ProcessPayment? && command.orderId == o
    requires o in w.order.orders && o !in w.payment.payments
    ensures command.key !in w.payment.keys
  {
    hide Ok, Legal, ViewOf, Wired, OrdersOk;
    assert LegalHere(w, command);
    OrderIsOk(w, o);
    TablesAreTheView(w, o);
    UnpaidIsUnanswered(ViewOf(w, o), command);
  }

  lemma PendingIsUnpaid(w: World, o: string)
    requires Inv(w) && o in w.order.orders && Waits(w.order, o, S.ReserveStock)
    ensures o !in w.payment.payments
  {
    OrderIsOk(w, o);
  }

  /** Reserve, pay, confirm: four messages passed, and ORDER_CONFIRMED is written. */
  lemma HappyPathCompletes(w: World, o: string, m: Message, now: int, txn: string)
      returns (reserved: Message, pay: Message, paid: Message, event: Message, done: World)
    requires Safe(w) && AwaitsStock(w, o, m) && Fits(w.product.products, m.lines)
    requires w.order.orders[o].userId in w.payment.wallets
    requires Price(w, m) <= w.payment.wallets[w.order.orders[o].userId]
    ensures var w1 := Pass(w, m, 0, "");
            && Written(w1, reserved)
            && var w2 := Pass(w1, reserved, now, "");
               && Written(w2, pay)
               && var w3 := Pass(w2, pay, 0, txn);
                  && Written(w3, paid)
                  && done == Pass(w3, paid, now, "")
    ensures Safe(done) && o in done.order.sagas && done.order.sagas[o].status == S.Succeeded
    ensures event.OrderConfirmed? && event.orderId == o && event in done.order.outbox
  {
    hide Pass, Fits, Price, Wired, OrdersOk, MessagesLegal, StockBalanced, MoneyBalanced, Written;
    PendingIsUnpaid(w, o);
    reserved := StockIsReserved(w, o, m);
    var w1 := Pass(w, m, 0, "");
    pay := PaymentIsRequested(w1, o, reserved, now);
    var w2 := Pass(w1, reserved, now, "");
    PaymentKeyIsFree(w2, o, pay);
    paid := PaymentIsSettled(w2, o, pay, txn);
    var w3 := Pass(w2, pay, 0, txn);
    event := OrderIsConfirmed(w3, o, paid, now);
    done := Pass(w3, paid, now, "");
  }

  // ---- the two ways to cancellation ----

  /** Reserve, refuse, cancel: when the demand does not fit, two messages passed cancel the order with
      the reason of the refusal, and ORDER_CANCELLED is written. */
  lemma RefusedPathCancels(w: World, o: string, m: Message, now: int) returns (refused: Message, done: World)
    requires Safe(w) && AwaitsStock(w, o, m) && !Fits(w.product.products, m.lines)
    ensures Written(Pass(w, m, 0, ""), refused) && done == Pass(Pass(w, m, 0, ""), refused, now, "")
    ensures refused.StockReservationFailed?
    ensures Safe(done) && HasRows(w.order, o) && CancelledFor(w.order, done.order, o, refused.reason)
    ensures done.payment == w.payment
  {
    hide Pass, Fits, Wired, OrdersOk, MessagesLegal, StockBalanced, MoneyBalanced, Written, CancelledFor;
    refused := StockIsRefused(w, o, m);
    var w1 := Pass(w, m, 0, "");
    var reason := OrderIsCancelled(w1, o, refused, now);
    done := Pass(w1, refused, now, "");
  }

  lemma UnansweredView(v: View)
    requires Ok(v) && v.reservation.None?
    ensures v.release.None? && v.payment.None?
  {
    hide SumBy, MapSeq, ItemLines, PricedLines, ItemsTotal, OnePricePerProduct, PricedTotal;
  }

  /** Nothing has been answered yet for an order whose reservation is unanswered. */
  lemma KeysAreFree(w: World, o: string, m: Message)
    requires Safe(w) && AwaitsStock(w, o, m)
    ensures m.key == CommandKey(w.order.sagas[o].id, ForReserve)
    ensures CommandKey(w.order.sagas[o].id, ForRelease) !in w.product.keys
    ensures CommandKey(w.order.sagas[o].id, ForPayment) !in w.payment.keys
  {
    hide Wired, OrdersOk, MessagesLegal, StockBalanced, MoneyBalanced, Ok, ViewOf;
    var w0 := PassReceives(w, m, 0, "");
    CommandKeyIsLookedUp(w0, m);
    OrderIsOk(w0, o);
    TablesAreTheView(w0, o);
    UnansweredView(ViewOf(w0, o));
  }

  lemma GivenBack(before: Catalogue, taken: Catalogue, after: Catalogue, lines: seq<Line>, back: seq<Line>)
    requires TakenAway(before, taken, lines) && TakenAway(after, taken, back) && multiset(back) == multiset(lines)
    ensures after == before
  {
    forall p | p in before
      ensures after[p] == before[p]
    {
      DemandPermutation(lines, back, p);
    }
  }

  /** The middle of the way: the payment is declined, and the stock goes back. */
  lemma DeclinedTail(w: World, o: string, pay: Message, now: int, txn: string)
      returns (declined: Message, release: Message, released: Message, done: World)
    requires Safe(w) && Waits(w.order, o, S.ProcessPayment) && HasRows(w.order, o)
    requires pay.ProcessPayment? && pay.orderId == o && Written(w, pay) && pay.key !in w.payment.keys && !Affordable(w, pay)
    requires CommandKey(w.order.sagas[o].id, ForRelease) !in w.product.keys
    ensures var w1 := Pass(w, pay, 0, txn);
            && Written(w1, declined)
            && var w2 := Pass(w1, declined, now, "");
               && Written(w2, release)
               && var w3 := Pass(w2, release, 0, "");
                  Written(w3, released) && done == Pass(w3, released, now, "")
    ensures Safe(done) && OrderIs(done, o, Cancelled) && done.payment.wallets == w.payment.wallets
    ensures declined.PaymentFailed? && o in done.order.sagas && done.order.sagas[o].status == S.Aborted
    ensures done.order.sagas[o].lastError == Some(declined.reason)
    ensures exists event :: event in done.order.outbox && event.OrderCancelled? && event.orderId == o
                            && event.reason == declined.reason
    ensures release.ReleaseStock? && TakenAway(done.product.products, w.product.products, release.lines)
    ensures StockWasReserved(w, o) && multiset(release.lines) == multiset(PricedLines(StockReply(w, o, ForReserve).value.items))
  {
    hide Pass, Inv, StockBalanced, MoneyBalanced, Written, PricedLines, TakenAway;
    declined := PaymentIsSettled(w, o, pay, txn);
    var w1 := Pass(w, pay, 0, txn);
    release := ReleaseIsRequested(w1, o, declined, now);
    var w2 := Pass(w1, declined, now, "");
    released := StockIsReleased(w2, o, release);
    var w3 := Pass(w2, release, 0, "");
    var reason := OrderIsCancelled(w3, o, released, now);
    done := Pass(w3, released, now, "");
    var event := done.order.outbox[|w3.order.outbox|];
    assert event.OrderCancelled? && event.reason == declined.reason;
  }

  /** Reserve, decline, release, cancel: when the stock is there and the money is not, six messages
      passed cancel the order with the reason of the declined payment, and the products and the
      wallets are exactly as before. */
  lemma DeclinedPathCompensates(w: World, o: string, m: Message, now: int, txn: string)
      returns (reserved: Message, pay: Message, declined: Message, release: Message, released: Message, done: World)
    requires Safe(w) && AwaitsStock(w, o, m) && Fits(w.product.products, m.lines)
    requires w.order.orders[o].userId in w.payment.wallets ==> w.payment.wallets[w.order.orders[o].userId] < Price(w, m)
    ensures var w1 := Pass(w, m, 0, "");
            && Written(w1, reserved)
            && var w2 := Pass(w1, reserved, now, "");
               && Written(w2, pay)
               && var w3 := Pass(w2, pay, 0, txn);
                  && Written(w3, declined)
                  && var w4 := Pass(w3, declined, now, "");
                     && Written(w4, release)
                     && var w5 := Pass(w4, release, 0, "");
                        Written(w5, released) && done == Pass(w5, released, now, "")
    ensures Safe(done) && OrderIs(done, o, Cancelled) && declined.PaymentFailed?
    ensures o in done.order.sagas && done.order.sagas[o].status == S.Aborted
    ensures done.order.sagas[o].lastError == Some(declined.reason)
    ensures exists event :: event in done.order.outbox && event.OrderCancelled? && event.orderId == o
                            && event.reason == declined.reason
    ensures done.product.products == w.product.products && done.payment.wallets == w.payment.wallets
  {
    hide Pass, Fits, Price, Inv, StockBalanced, MoneyBalanced, Written, PricedLines, TakenAway;
    KeysAreFree(w, o, m);
    reserved := StockIsReserved(w, o, m);
    var w1 := Pass(w, m, 0, "");
    pay := PaymentIsRequested(w1, o, reserved, now);
    var w2 := Pass(w1, reserved, now, "");
    declined, release, released, done := DeclinedTail(w2, o, pay, now, txn);
    GivenBack(w.product.products, w2.product.products, done.product.products, m.lines, release.lines);
  }

  // ---- a lost payment command ----

  /** The world after the poller visits the saga of an order. */
  function Visit(w: World, o: string, now: int): World {
    Happen(w, Polled(o, now))
  }

  /** A visit below the retry limit leaves the saga waiting for the same step, and writes that step's
      command. */
  lemma VisitSendsCommand(w: World, o: string, now: int) returns (w': World, command: Message)
    requires Safe(w) && HasRows(w.order, o) && w.order.sagas[o].status == S.Running && w.order.sagas[o].retryCount < 3
    ensures w.order.sagas[o].step in {S.ReserveStock, S.ProcessPayment, S.ReleaseStock}
    ensures command == CurrentCommand(w.order.sagas[o], w.order.orders[o])
    ensures Safe(w') && Written(w', command) && SameElsewhere(w, w') && Waits(w'.order, o, w.order.sagas[o].step)
    ensures w' == Visit(w, o, now)
  {
    hide Inv, StockBalanced, MoneyBalanced, Happen, CurrentCommand;
    EventIsSafe(w, Polled(o, now));
    VisitRetriesOrGivesUp(w, o, now);
    command := CurrentCommand(w.order.sagas[o], w.order.orders[o]);
    w' := Happen(w, Polled(o, now));
    assert command in w'.order.outbox;
  }

  /** The payment command was lost: one visit of the poller sends it again, and two messages passed
      complete the saga. */
  lemma RetryRecoversPayment(w: World, o: string, now: int, txn: string)
      returns (visited: World, pay: Message, paid: Message, done: World)
    requires Safe(w) && Waits(w.order, o, S.ProcessPayment) && HasRows(w.order, o) && w.order.sagas[o].retryCount < 3
    requires CommandKey(w.order.sagas[o].id, ForPayment) !in w.payment.keys
    requires w.order.orders[o].userId in w.payment.wallets
    requires w.order.orders[o].total <= w.payment.wallets[w.order.orders[o].userId]
    ensures Written(visited, pay)
    ensures var w2 := Pass(visited, pay, 0, txn);
            Written(w2, paid) && done == Pass(w2, paid, now, "")
    ensures Safe(done) && o in done.order.sagas && done.order.sagas[o].status == S.Succeeded
    ensures exists event :: event in done.order.outbox && event.OrderConfirmed? && event.orderId == o
    ensures visited == Visit(w, o, now)
  {
    hide Pass, Safe, Visit, Written;
    visited, pay := VisitSendsCommand(w, o, now);
    paid := PaymentIsSettled(visited, o, pay, txn);
    var w2 := Pass(visited, pay, 0, txn);
    var event := OrderIsConfirmed(w2, o, paid, now);
    done := Pass(w2, paid, now, "");
  }

  // ---- confirmed, and not paid ----

  /** From every safe state in which an unanswered reservation fits the stock, two passed messages
      confirm the order, and nothing has been charged for it. */
  lemma ConfirmedBeforePaid(w: World, o: string, m: Message, now: int) returns (reserved: Message, confirmed: World)
    requires Safe(w) && AwaitsStock(w, o, m) && Fits(w.product.products, m.lines)
    ensures Written(Pass(w, m, 0, ""), reserved) && confirmed == Pass(Pass(w, m, 0, ""), reserved, now, "")
    ensures Safe(Pass(w, m, 0, "")) && Safe(confirmed)
    ensures OrderIs(confirmed, o, Confirmed) && !IsCharged(confirmed, o)
  {
    hide Pass, Fits, Price, Wired, OrdersOk, MessagesLegal, StockBalanced, MoneyBalanced, Written;
    PendingIsUnpaid(w, o);
    reserved := StockIsReserved(w, o, m);
    var w1 := Pass(w, m, 0, "");
    var pay := PaymentIsRequested(w1, o, reserved, now);
    confirmed := Pass(w1, reserved, now, "");
  }

  lemma RunExtends(ws: seq<World>, e: Event) returns (longer: seq<World>)
    requires Run(ws) && Enabled(ws[|ws| - 1], e)
    ensures Run(longer) && ws <= longer && |longer| == |ws| + 1 && longer[|longer| - 1] == Happen(ws[|ws| - 1], e)
  {
    hide Initial, Enabled, Happen;
    longer := ws + [Happen(ws[|ws| - 1], e)];
    forall i | 0 <= i < |longer| - 1
      ensures Next(longer[i], longer[i + 1])
    {
      if i < |ws| - 1 {
        assert Next(ws[i], ws[i + 1]);
      } else {
        assert Enabled(longer[i], e) && longer[i + 1] == Happen(longer[i], e);
      }
    }
  }

  lemma RunPasses(ws: seq<World>, m: Message, now: int, txn: string) returns (longer: seq<World>)
    requires Run(ws) && Written(ws[|ws| - 1], m)
    ensures Run(longer) && ws <= longer && |longer| == |ws| + 2
    ensures longer[|longer| - 1] == Pass(ws[|ws| - 1], m, now, txn)
  {
    hide Next, Initial, Safe, Pass, Receive, Written, Happen, Enabled;
    var w := ws[|ws| - 1];
    RunIsSafe(ws, |ws| - 1);
    PassIsTwoEvents(w, m, now, txn);
    var published := RunExtends(ws, Published(m));
    longer := RunExtends(published, Delivered(m, now, txn));
  }

  /** A shop with one product, and one order for it. */
  lemma SmallestShop() returns (ws: seq<World>, o: string, m: Message)
    ensures Run(ws) && AwaitsStock(ws[|ws| - 1], o, m) && Fits(ws[|ws| - 1].product.products, m.lines)
  {
    var w0 := World(OrderDb(map[], map[], []), ProductDb(map[], map[], []), PaymentDb(map[], map[], map[], []),
                    Notification.NotifyDb({}, []), {}, map[], map[], map[]);
    var sagaId := seq(UUID_LENGTH, _ => '0');
    var lines := [Line("p", 1)];
    ws := [w0];
    assert Initial(w0);
    ws := RunExtends(ws, ProductAdded("p", "P", 100, 1));
    ws := RunExtends(ws, Ordered("o", sagaId, "u", "u@shop", "c", lines, ["i"], 0));
    o, m := "o", ReserveStock(CommandKey(sagaId, ForReserve), "o", "c", lines);
    assert m in ws[|ws| - 1].order.outbox;
    assert Demand(lines, "p") == 1 by { DemandHead(lines, "p"); }
  }

  /** So a run reaches an order that is confirmed and not charged. */
  lemma ConfirmedIsNotPaid() returns (ws: seq<World>, o: string)
    ensures Run(ws) && OrderIs(ws[|ws| - 1], o, Confirmed) && !IsCharged(ws[|ws| - 1], o)
  {
    hide Next, Initial, Safe, Pass, Written, Fits, AwaitsStock;
    var m;
    ws, o, m := SmallestShop();
    var w := ws[|ws| - 1];
    RunIsSafe(ws, |ws| - 1);
    AwaitedIsWritten(w, o, m);
    var reserved, confirmed := ConfirmedBeforePaid(w, o, m, 0);
    ws := RunPasses(ws, m, 0, "");
    ws := RunPasses(ws, reserved, 0, "");
  }

  lemma AwaitedIsWritten(w: World, o: string, m: Message)
    requires AwaitsStock(w, o, m)
    ensures Written(w, m)
  {
  }
}
