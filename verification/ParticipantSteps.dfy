/** The participants' steps and the environment's steps keep the invariant. */
module ParticipantSteps {
  import opened Basics
  import opened OrderEntity
  import opened Messages
  import opened Stock
  import opened ProductService
  import opened PaymentService
  import opened Notification
  import opened World
  import opened Local
  import opened Invariant
  import opened OrderSteps

  /** What a view is made of. */
  lemma ViewDependsOn(w: World, w': World, x: string)
    requires x in w.order.orders && x in w.order.sagas
    requires w'.order == w.order && w'.product.keys == w.product.keys && w'.notify == w.notify && w'.leaks == w.leaks
    requires w'.payment.keys == w.payment.keys && w'.payment.payments == w.payment.payments
    ensures ViewOf(w', x) == ViewOf(w, x)
  {
  }

  /** A step that changes no order's view and writes only messages that were legal already. */
  lemma SameViewsKeep(w: World, w': World)
    requires Inv(w) && Wired(w') && w'.order.orders.Keys == w.order.orders.Keys
    requires forall x :: x in w.order.orders ==> ViewOf(w', x) == ViewOf(w, x)
    requires forall m :: Written(w', m) ==> Written(w, m) || LegalHere(w, m)
    ensures Keeps(w, w')
  {
    hide Ok, Legal, Grows, ViewOf, Wired;
    EveryOrderHasASaga(w);
    EveryOrderHasASaga(w');
    forall x | x in w.order.orders
      ensures Grows(ViewOf(w, x), ViewOf(w', x))
    {
      GrowsReflexive(ViewOf(w, x));
    }
    forall m | Written(w', m)
      ensures LegalHere(w', m)
    {
      assert LegalHere(w, m);
    }
  }

  // ---- stock commands ----

  /** The world after a participant queues one more reply and changes nothing else. */
  function ProductQueued(w: World, reply: Message): World {
    w.(product := w.product.(outbox := w.product.outbox + [reply]))
  }

  lemma ProductQueuedKeeps(w: World, reply: Message)
    requires Inv(w) && LegalHere(w, reply)
    ensures Keeps(w, ProductQueued(w, reply))
  {
    hide Ok, Legal, Grows, ViewOf;
    var w' := ProductQueued(w, reply);
    forall x | x in w.order.orders
      ensures ViewOf(w', x) == ViewOf(w, x)
    {
      ViewDependsOn(w, w', x);
    }
    SameViewsKeep(w, w');
  }

  /** The world after product-service answers a new command of order `o`, which may have been
      refused after taking some lines. */
  function StockAnswered(w: World, o: string, key: CommandKey, reply: Message, products: Catalogue,
                         leak: Option<seq<Line>>): World
  {
    w.(product := Answer(w.product, products, key, reply),
       leaks := if leak.Some? then w.leaks[o := leak.value] else w.leaks)
  }

  lemma StockAnsweredWired(w: World, o: string, key: CommandKey, reply: Message, products: Catalogue,
                           leak: Option<seq<Line>>)
    requires Wired(w) && o in w.order.orders && key.sagaId == w.order.sagas[o].id
    ensures Wired(StockAnswered(w, o, key, reply, products, leak))
  {
    assert Owned(w.order, key);
    assert Anchored(StockAnswered(w, o, key, reply, products, leak));
  }

  lemma StockAnsweredOtherViews(w: World, o: string, key: CommandKey, reply: Message, products: Catalogue,
                                leak: Option<seq<Line>>, x: string)
    requires Wired(w) && o in w.order.orders && key.sagaId == w.order.sagas[o].id
    requires x in w.order.orders && x != o
    ensures ViewOf(StockAnswered(w, o, key, reply, products, leak), x) == ViewOf(w, x)
  {
    assert w.order.sagas[x].id != key.sagaId;
  }

  lemma StockAnsweredKeeps(w: World, o: string, key: CommandKey, reply: Message, products: Catalogue,
                           leak: Option<seq<Line>>)
    requires Inv(w) && o in w.order.orders && key.sagaId == w.order.sagas[o].id
    requires reply.orderId == o
    requires ProperAnswer(ViewOf(w, o), ViewOf(StockAnswered(w, o, key, reply, products, leak), o), reply)
    ensures Keeps(w, StockAnswered(w, o, key, reply, products, leak))
  {
    hide Ok, Legal, Grows, ViewOf;
    var w' := StockAnswered(w, o, key, reply, products, leak);
    StockAnsweredWired(w, o, key, reply, products, leak);
    forall x | x in w.order.orders && x != o
      ensures ViewOf(w', x) == ViewOf(w, x)
    {
      StockAnsweredOtherViews(w, o, key, reply, products, leak, x);
    }
    StepAtKeeps(w, w', o);
  }

  lemma RefusalIsDomainReason(products: Catalogue, line: Line)
    requires Refusal(products, line).Some?
    ensures DomainReason(Refusal(products, line).value)
  {
    var reason := Refusal(products, line).value;
    assert reason[0] == 'P' || reason[0] == 'I';
  }

  lemma {:induction false} ReserveRefusalIsDomainReason(products: Catalogue, lines: seq<Line>)
    requires Reserve(products, lines).refusal.Some?
    ensures DomainReason(Reserve(products, lines).refusal.value)
  {
    if Refusal(products, lines[0]).Some? {
      RefusalIsDomainReason(products, lines[0]);
    } else {
      ReserveRefusalIsDomainReason(Take(products, lines[0]), lines[1..]);
    }
  }

  /** The reply to a legal reserve command is a proper reservation or a proper refusal. */
  lemma ReserveReplyIsProper(v: View, command: Message, products: Catalogue)
    requires command.ReserveStock? && Legal(v, command)
    ensures ReservationOk(v.(reservation := Some(ReserveReply(command, Reserve(products, command.lines)))))
  {
    var attempt := Reserve(products, command.lines);
    ReserveEffect(products, command.lines);
    ReservePricesOnce(products, command.lines);
    assert command.lines[..|command.lines|] == command.lines;
    if attempt.refusal.Some? {
      ReserveRefusalIsDomainReason(products, command.lines);
    }
  }

  /** What a refused reservation leaks is part of what the order asked for. */
  lemma LeakIsPartOfOrder(v: View, command: Message, products: Catalogue)
    requires command.ReserveStock? && Legal(v, command)
    ensures multiset(LeakOf(Reserve(products, command.lines))) <= multiset(ItemLines(v.order.items))
  {
    hide ItemLines, PricedLines, Reserve;
    ReserveEffect(products, command.lines);
    PrefixIsPart(command.lines, |Reserve(products, command.lines).taken|);
  }

  /** The key of a legal command is the one its order's view looks up. */
  lemma CommandKeyIsLookedUp(w: World, m: Message)
    requires Inv(w) && m in w.network && (m.ReserveStock? || m.ReleaseStock? || m.ProcessPayment?)
    ensures m.orderId in w.order.orders && m.orderId in w.order.sagas
    ensures m.key == CommandKey(w.order.sagas[m.orderId].id,
                                if m.ReserveStock? then ForReserve else if m.ReleaseStock? then ForRelease else ForPayment)
    ensures var v := ViewOf(w, m.orderId);
            && (m.ReserveStock? ==> v.reservation == Lookup(w.product.keys, m.key))
            && (m.ReleaseStock? ==> v.release == Lookup(w.product.keys, m.key))
            && (m.ProcessPayment? ==> v.payment == Lookup(w.payment.keys, m.key))
  {
    DeliveredIsLegal(w, m);
    hide Inv, Ok, SumBy;
  }

  lemma StoredReplyIsLegal(v: View, reply: Message)
    requires Ok(v)
    requires v.reservation == Some(reply) || v.release == Some(reply) || v.payment == Some(reply)
    ensures reply.orderId == v.order.id && Legal(v, reply)
  {
  }

  lemma KnownStockCommandKeeps(w: World, m: Message)
    requires Inv(w) && m in w.network && (m.ReserveStock? || m.ReleaseStock?) && m.key in w.product.keys
    ensures Keeps(w, ProductQueued(w, w.product.keys[m.key]))
  {
    hide Ok, Legal, Grows, ViewOf;
    CommandKeyIsLookedUp(w, m);
    OrderIsOk(w, m.orderId);
    StoredReplyIsLegal(ViewOf(w, m.orderId), w.product.keys[m.key]);
    ProductQueuedKeeps(w, w.product.keys[m.key]);
  }

  lemma ReserveKeeps(w: World, m: Message, now: int, txn: string)
    requires Inv(w) && m in w.network && m.ReserveStock?
    ensures Keeps(w, Receive(w, m, now, txn))
  {
    hide Ok, Legal, Grows, ViewOf, Reserve, ReleaseAll;
    if m.key in w.product.keys {
      KnownStockCommandKeeps(w, m);
    } else {
      NewReserveKeeps(w, m);
    }
  }

  lemma ReservationLookedUp(w: World, o: string, reply: Message, products: Catalogue, leak: seq<Line>)
    requires Wired(w) && o in w.order.orders
    ensures var w' := StockAnswered(w, o, CommandKey(w.order.sagas[o].id, ForReserve), reply, products, Some(leak));
            ViewOf(w', o) == ViewOf(w, o).(reservation := Some(reply), leak := leak)
  {
  }

  lemma NewReserveKeeps(w: World, m: Message)
    requires Inv(w) && m in w.network && m.ReserveStock? && m.key !in w.product.keys
    ensures var attempt := Reserve(w.product.products, m.lines);
            Keeps(w, StockAnswered(w, m.orderId, m.key, ReserveReply(m, attempt), attempt.products,
                                   Some(LeakOf(attempt))))
  {
    hide Ok, Legal, Grows, ViewOf, Reserve, ProperAnswer;
    var o := m.orderId;
    CommandKeyIsLookedUp(w, m);
    OrderIsOk(w, o);
    DeliveredIsLegal(w, m);
    var v, attempt := ViewOf(w, o), Reserve(w.product.products, m.lines);
    ReservationLookedUp(w, o, ReserveReply(m, attempt), attempt.products, LeakOf(attempt));
    NoLeakBeforeReservation(v);
    ReserveReplyIsProper(v, m, w.product.products);
    LeakIsPartOfOrder(v, m, w.product.products);
    ReservationAnswered(v, ReserveReply(m, attempt), LeakOf(attempt));
    StockAnsweredKeeps(w, o, m.key, ReserveReply(m, attempt), attempt.products, Some(LeakOf(attempt)));
  }

  lemma NoLeakBeforeReservation(v: View)
    requires Ok(v) && v.reservation.None?
    ensures v.leak == []
  {
  }

  lemma ReleaseLookedUp(w: World, o: string, reply: Message, products: Catalogue)
    requires Wired(w) && o in w.order.orders
    ensures var w' := StockAnswered(w, o, CommandKey(w.order.sagas[o].id, ForRelease), reply, products, None);
            ViewOf(w', o) == ViewOf(w, o).(release := Some(reply))
  {
  }

  lemma NewReleaseKeeps(w: World, m: Message)
    requires Inv(w) && m in w.network && m.ReleaseStock? && m.key !in w.product.keys
    ensures Keeps(w, StockAnswered(w, m.orderId, m.key, StockReleased(m.key, m.orderId, m.correlationId),
                                   ReleaseAll(w.product.products, m.lines), None))
  {
    hide Ok, Legal, Grows, ViewOf, ReleaseAll, ProperAnswer;
    var o := m.orderId;
    CommandKeyIsLookedUp(w, m);
    OrderIsOk(w, o);
    DeliveredIsLegal(w, m);
    var reply, products := StockReleased(m.key, o, m.correlationId), ReleaseAll(w.product.products, m.lines);
    ReleaseLookedUp(w, o, reply, products);
    ReleaseAnswered(ViewOf(w, o), m);
    StockAnsweredKeeps(w, o, m.key, reply, products, None);
  }

  lemma ReleaseKeeps(w: World, m: Message, now: int, txn: string)
    requires Inv(w) && m in w.network && m.ReleaseStock?
    ensures Keeps(w, Receive(w, m, now, txn))
  {
    hide Ok, Legal, Grows, ViewOf, Reserve, ReleaseAll;
    if m.key in w.product.keys {
      KnownStockCommandKeeps(w, m);
    } else {
      NewReleaseKeeps(w, m);
    }
  }

  // ---- payment commands ----

  function PaymentQueued(w: World, reply: Message): World {
    w.(payment := w.payment.(outbox := w.payment.outbox + [reply]))
  }

  lemma PaymentQueuedKeeps(w: World, reply: Message)
    requires Inv(w) && LegalHere(w, reply)
    ensures Keeps(w, PaymentQueued(w, reply))
  {
    hide Ok, Legal, Grows, ViewOf;
    var w' := PaymentQueued(w, reply);
    forall x | x in w.order.orders
      ensures ViewOf(w', x) == ViewOf(w, x)
    {
      ViewDependsOn(w, w', x);
    }
    SameViewsKeep(w, w');
  }

  /** The world after payment-service answers a new command of order `o`. */
  function Paid(w: World, o: string, key: CommandKey, reply: Message, row: Payment, wallets: map<string, Money>): World {
    w.(payment := PaymentDb(wallets, w.payment.payments[o := row], w.payment.keys[key := reply],
                            w.payment.outbox + [reply]))
  }

  lemma PaidWired(w: World, o: string, key: CommandKey, reply: Message, row: Payment, wallets: map<string, Money>)
    requires Wired(w) && o in w.order.orders && key.sagaId == w.order.sagas[o].id
    ensures Wired(Paid(w, o, key, reply, row, wallets))
  {
    assert Owned(w.order, key);
    assert Anchored(Paid(w, o, key, reply, row, wallets));
  }

  lemma PaidViews(w: World, o: string, key: CommandKey, reply: Message, row: Payment, wallets: map<string, Money>,
                  x: string)
    requires Wired(w) && o in w.order.orders && key == CommandKey(w.order.sagas[o].id, ForPayment)
    requires x in w.order.orders
    ensures var w' := Paid(w, o, key, reply, row, wallets);
            && (x != o ==> ViewOf(w', x) == ViewOf(w, x))
            && (x == o ==> ViewOf(w', x) == ViewOf(w, x).(payment := Some(reply), paymentRow := Some(row)))
  {
    assert x != o ==> w.order.sagas[x].id != key.sagaId;
  }

  lemma PaidKeeps(w: World, o: string, key: CommandKey, reply: Message, row: Payment, wallets: map<string, Money>)
    requires Inv(w) && o in w.order.orders && key == CommandKey(w.order.sagas[o].id, ForPayment)
    requires reply.orderId == o
    requires ProperAnswer(ViewOf(w, o), ViewOf(w, o).(payment := Some(reply), paymentRow := Some(row)), reply)
    ensures Keeps(w, Paid(w, o, key, reply, row, wallets))
  {
    hide Ok, Legal, Grows, ViewOf;
    var w' := Paid(w, o, key, reply, row, wallets);
    PaidWired(w, o, key, reply, row, wallets);
    PaidViews(w, o, key, reply, row, wallets, o);
    forall x | x in w.order.orders && x != o
      ensures ViewOf(w', x) == ViewOf(w, x)
    {
      PaidViews(w, o, key, reply, row, wallets, x);
    }
    StepAtKeeps(w, w', o);
  }

  lemma FundsErrorIsDomainReason(available: Money, required: Money)
    ensures DomainReason(FundsError(available, required))
  {
    assert FundsError(available, required)[0] == 'I';
  }

  /** A payment command reaches an order without a payment row unless it was answered before, so
      the unique constraint on the order never fires. */
  lemma UnansweredHasNoRow(v: View)
    requires Ok(v) && v.payment.None?
    ensures v.paymentRow.None?
  {
  }

  lemma PaymentNeverThrows(w: World, m: Message, txn: string)
    requires Inv(w) && m in w.network && m.ProcessPayment?
    ensures HandlePayment(w.payment, m, txn).Done?
    ensures m.key !in w.payment.keys ==> m.orderId !in w.payment.payments
  {
    CommandKeyIsLookedUp(w, m);
    OrderIsOk(w, m.orderId);
    if m.key !in w.payment.keys {
      UnansweredHasNoRow(ViewOf(w, m.orderId));
    }
  }

  lemma NewPaymentKeeps(w: World, m: Message, txn: string)
    requires Inv(w) && m in w.network && m.ProcessPayment? && m.key !in w.payment.keys
    ensures var (charged, refusal) := Charge(w.payment, m.orderId, m.userId, m.amount, txn);
            var reply := PaymentReply(m, refusal, txn);
            && m.orderId in charged.payments
            && Keeps(w, Paid(w, m.orderId, m.key, reply, charged.payments[m.orderId], charged.wallets))
  {
    hide Ok, Legal, Grows, ViewOf, ProperAnswer;
    var o := m.orderId;
    CommandKeyIsLookedUp(w, m);
    OrderIsOk(w, o);
    DeliveredIsLegal(w, m);
    var (charged, refusal) := Charge(w.payment, o, m.userId, m.amount, txn);
    FundsErrorIsDomainReason(Balance(w.payment, m.userId), m.amount);
    PaymentAnswered(ViewOf(w, o), m, PaymentReply(m, refusal, txn), charged.payments[o]);
    PaidKeeps(w, o, m.key, PaymentReply(m, refusal, txn), charged.payments[o], charged.wallets);
  }

  lemma PaymentKeeps(w: World, m: Message, now: int, txn: string)
    requires Inv(w) && m in w.network && m.ProcessPayment?
    ensures Keeps(w, Receive(w, m, now, txn))
  {
    hide Ok, Legal, Grows, ViewOf;
    PaymentNeverThrows(w, m, txn);
    if m.key in w.payment.keys {
      CommandKeyIsLookedUp(w, m);
      OrderIsOk(w, m.orderId);
      StoredReplyIsLegal(ViewOf(w, m.orderId), w.payment.keys[m.key]);
      PaymentQueuedKeeps(w, w.payment.keys[m.key]);
    } else {
      NewPaymentKeeps(w, m, txn);
    }
  }

  // ---- e-mails ----

  lemma MailCount(db: NotifyDb, k: LogKey, x: string)
    requires k.eventType != PdfEvent
    ensures SumBy(Notify(db, k).emails, MailFor(x)) ==
            SumBy(db.emails, MailFor(x)) + (if k !in db.log && k.orderId == x then 1 else 0)
  {
    SumByAppend(db.emails, [k], MailFor(x));
  }

  lemma NotifiedOtherViews(w: World, event: Message, x: string)
    requires x in w.order.orders && x in w.order.sagas && IsOutcome(event) && x != event.orderId
    ensures ViewOf(w.(notify := Notify(w.notify, EventOf(event))), x) == ViewOf(w, x)
  {
    hide SumBy, MailFor;
    MailCount(w.notify, EventOf(event), x);
  }

  lemma NotifiedView(w: World, event: Message)
    requires event.orderId in w.order.orders && event.orderId in w.order.sagas && IsOutcome(event)
    ensures var o := event.orderId;
            ViewOf(w.(notify := Notify(w.notify, EventOf(event))), o) == Mailed(ViewOf(w, o), event)
  {
    hide SumBy, MailFor, Lookup;
    var key, w' := EventOf(event), w.(notify := Notify(w.notify, EventOf(event)));
    MailCount(w.notify, key, event.orderId);
    assert w'.notify.log == w.notify.log + {key};
  }

  lemma NotifiedKeeps(w: World, m: Message, now: int, txn: string)
    requires Inv(w) && m in w.network && IsOutcome(m)
    ensures Keeps(w, Receive(w, m, now, txn))
  {
    hide Ok, Legal, Grows, ViewOf, Mailed;
    var o, w' := m.orderId, w.(notify := Notify(w.notify, EventOf(m)));
    DeliveredIsLegal(w, m);
    OrderIsOk(w, o);
    MailStep(ViewOf(w, o), m);
    assert Anchored(w');
    NotifiedView(w, m);
    forall x | x in w.order.orders && x != o
      ensures ViewOf(w', x) == ViewOf(w, x)
    {
      NotifiedOtherViews(w, m, x);
    }
    StepAtKeeps(w, w', o);
  }

  // ---- the environment ----

  /** Publishing, wallet and catalogue events touch no order. */
  lemma EnvironmentKeeps(w: World, w': World)
    requires Inv(w)
    requires w'.order == w.order && w'.notify == w.notify && w'.leaks == w.leaks
    requires w'.product.keys == w.product.keys && w'.product.outbox == w.product.outbox
    requires w'.payment.keys == w.payment.keys && w'.payment.outbox == w.payment.outbox
    requires w'.payment.payments == w.payment.payments
    requires forall m :: m in w'.network ==> Written(w, m)
    ensures Keeps(w, w')
  {
    hide Ok, Legal, Grows, ViewOf;
    assert Anchored(w');
    forall x | x in w.order.orders
      ensures ViewOf(w', x) == ViewOf(w, x)
    {
      ViewDependsOn(w, w', x);
    }
    SameViewsKeep(w, w');
  }
}
