/** The orchestrator's steps keep the invariant, and none of them ever throws. */
module OrderSteps {
  import opened Basics
  import opened OrderEntity
  import opened Messages
  import opened Orchestrator
  import Notification
  import opened World
  import opened Local
  import opened Invariant
  import S = SagaEntity

  /** What is known about an order when the orchestrator looks at it. */
  lemma OrderIsOk(w: World, o: string)
    requires Inv(w) && o in w.order.orders
    ensures o in w.order.sagas
    ensures Ok(ViewOf(w, o))
    ensures ViewOf(w, o).order == w.order.orders[o] && ViewOf(w, o).saga == w.order.sagas[o]
    ensures w.order.orders[o].id == o && w.order.sagas[o].orderId == o
  {
    hide Ok, Legal;
  }

  /** A published message is about an existing order and is legal for it. */
  lemma DeliveredIsLegal(w: World, m: Message)
    requires Inv(w) && m in w.network
    ensures m.orderId in w.order.orders && m.orderId in w.order.sagas
    ensures Legal(ViewOf(w, m.orderId), m)
  {
    hide Ok, Legal;
    assert Written(w, m);
    assert LegalHere(w, m);
  }

  /** A published reply is the one stored for its order's saga. */
  lemma ReplyIsStored(w: World, m: Message)
    requires Inv(w) && m in w.network && IsReply(m)
    ensures m.orderId in w.order.orders && m.orderId in w.order.sagas
    ensures var v := ViewOf(w, m.orderId);
            && (m.StockReserved? || m.StockReservationFailed? ==> v.reservation == Some(m))
            && (m.StockReleased? ==> v.release == Some(m))
            && (m.PaymentProcessed? || m.PaymentFailed? ==> v.payment == Some(m))
  {
    hide Inv, ViewOf, Ok;
    DeliveredIsLegal(w, m);
  }

  lemma StockReservedKeeps(w: World, m: Message, now: int)
    requires Inv(w) && m in w.network && m.StockReserved?
    ensures OnStockReserved(w.order, m, now).Done?
    ensures Keeps(w, w.(order := OnStockReserved(w.order, m, now).value))
  {
    hide Ok, Legal, Grows, ViewOf, ProperStep;
    var o := m.orderId;
    ReplyIsStored(w, m);
    OrderIsOk(w, o);
    var order, saga := w.order.orders[o], w.order.sagas[o];
    if S.CanHandle(saga, S.ReserveStock) {
      ConfirmStep(ViewOf(w, o), m, now);
      OrchestratedStep(w, o, Confirm(order, m.total, m.items).value, S.Advance(saga, now).value,
                       Some(PayCommand(saga, o, order.userId, m.total)));
    } else {
      StutterKeeps(w);
    }
  }

  lemma ReservationFailedKeeps(w: World, m: Message)
    requires Inv(w) && m in w.network && m.StockReservationFailed?
    ensures OnStockReservationFailed(w.order, m).Done?
    ensures Keeps(w, w.(order := OnStockReservationFailed(w.order, m).value))
  {
    hide Ok, Legal, Grows, ViewOf, ProperStep;
    var o := m.orderId;
    ReplyIsStored(w, m);
    OrderIsOk(w, o);
    var order, saga := w.order.orders[o], w.order.sagas[o];
    if S.CanHandle(saga, S.ReserveStock) {
      RefusedStep(ViewOf(w, o), m);
      OrchestratedStep(w, o, Compensate(order).value, S.Fail(saga, m.reason),
                       Some(OrderCancelled(o, order.userId, order.userEmail, saga.correlationId, m.reason)));
    } else {
      StutterKeeps(w);
    }
  }

  lemma PaymentProcessedKeeps(w: World, m: Message, now: int)
    requires Inv(w) && m in w.network && m.PaymentProcessed?
    ensures OnPaymentProcessed(w.order, m, now).Done?
    ensures Keeps(w, w.(order := OnPaymentProcessed(w.order, m, now).value))
  {
    hide Ok, Legal, Grows, ViewOf, ProperStep;
    var o := m.orderId;
    ReplyIsStored(w, m);
    OrderIsOk(w, o);
    var order, saga := w.order.orders[o], w.order.sagas[o];
    if S.CanHandle(saga, S.ProcessPayment) {
      CompleteStep(ViewOf(w, o), m, now);
      var sent := OrderConfirmed(o, order.userId, order.userEmail, saga.correlationId,
                                 MapSeq(order.items, ItemPriced()), order.total);
      assert w.order.orders[o := order] == w.order.orders;
      OrchestratedStep(w, o, order, S.Advance(saga, now).value, Some(sent));
    } else {
      StutterKeeps(w);
    }
  }

  lemma PaymentFailedKeeps(w: World, m: Message, now: int)
    requires Inv(w) && m in w.network && m.PaymentFailed?
    ensures OnPaymentFailed(w.order, m, now).Done?
    ensures Keeps(w, w.(order := OnPaymentFailed(w.order, m, now).value))
  {
    hide Ok, Legal, Grows, ViewOf, ProperStep;
    var o := m.orderId;
    ReplyIsStored(w, m);
    OrderIsOk(w, o);
    var order, saga := w.order.orders[o], w.order.sagas[o];
    if S.CanHandle(saga, S.ProcessPayment) {
      CompensateStep(ViewOf(w, o), m, now);
      assert w.order.orders[o := order] == w.order.orders;
      OrchestratedStep(w, o, order, S.StartCompensation(saga, m.reason, now),
                       Some(ReleaseCommand(saga, o, ItemLines(order.items))));
    } else {
      StutterKeeps(w);
    }
  }

  lemma StockReleasedKeeps(w: World, m: Message)
    requires Inv(w) && m in w.network && m.StockReleased?
    ensures OnStockReleased(w.order, m).Done?
    ensures Keeps(w, w.(order := OnStockReleased(w.order, m).value))
  {
    hide Ok, Legal, Grows, ViewOf, ProperStep;
    var o := m.orderId;
    ReplyIsStored(w, m);
    OrderIsOk(w, o);
    var order, saga := w.order.orders[o], w.order.sagas[o];
    if S.CanHandle(saga, S.ReleaseStock) {
      ReleasedStep(ViewOf(w, o), m);
      var reason := saga.lastError.value;
      OrchestratedStep(w, o, Compensate(order).value, S.Fail(saga, reason),
                       Some(OrderCancelled(o, order.userId, order.userEmail, saga.correlationId, reason)));
    } else {
      StutterKeeps(w);
    }
  }

  lemma PolledKeeps(w: World, o: string, now: int)
    requires Inv(w)
    ensures PollOne(w.order, o, now).Done?
    ensures Keeps(w, w.(order := PollOne(w.order, o, now).value))
  {
    hide Ok, Legal, Grows, ViewOf, ProperStep;
    if o in w.order.orders && w.order.sagas[o].status == S.Running {
      OrderIsOk(w, o);
      var order, saga := w.order.orders[o], w.order.sagas[o];
      assert w.order.orders[o := order] == w.order.orders;
      if S.HasExceededMaxRetries(saga) {
        GiveUpStep(ViewOf(w, o));
        OrchestratedStep(w, o, order, S.Fail(saga, S.RETRIES_EXHAUSTED), None);
      } else {
        RetryStep(ViewOf(w, o), now);
        OrchestratedStep(w, o, order, S.ScheduleRetry(saga, now), Some(CurrentCommand(saga, order)));
      }
    } else {
      StutterKeeps(w);
    }
  }

  lemma ReloadedKeeps(w: World, o: string, items: seq<OrderItem>)
    requires Inv(w) && o in w.order.orders && multiset(items) == multiset(w.order.orders[o].items)
    ensures Keeps(w, w.(order := PutOrder(w.order, w.order.orders[o].(items := items))))
  {
    hide Ok, Legal, Grows, ViewOf, ProperStep;
    OrderIsOk(w, o);
    var order, saga := w.order.orders[o], w.order.sagas[o];
    assert w.order.sagas[o := saga] == w.order.sagas;
    ReloadStep(ViewOf(w, o), items);
    OrchestratedStep(w, o, order.(items := items), saga, None);
  }

  // ---- a new order ----

  /** The world after an order is created. */
  function Created(w: World, order: Order, saga: S.Saga, sent: Message): World {
    w.(order := OrderDb(w.order.orders[order.id := order], w.order.sagas[order.id := saga], w.order.outbox + [sent]))
  }

  predicate Fresh(w: World, order: Order, saga: S.Saga) {
    && order.id !in w.order.orders
    && saga.orderId == order.id
    && |saga.id| == UUID_LENGTH
    && forall x :: x in w.order.sagas ==> w.order.sagas[x].id != saga.id
  }

  lemma CreatedWired(w: World, order: Order, saga: S.Saga, sent: Message)
    requires Wired(w) && Fresh(w, order, saga)
    ensures Wired(Created(w, order, saga, sent))
  {
    var w' := Created(w, order, saga, sent);
    assert Linked(w'.order);
    forall k | Owned(w.order, k) ensures Owned(w'.order, k) {
      OwnedStays(w.order, w'.order, k);
    }
    assert Anchored(w');
  }

  lemma {:induction false} NoRows(outbox: seq<Message>, o: string)
    requires forall i :: 0 <= i < |outbox| ==> outbox[i].orderId != o
    ensures SumBy(outbox, RowFor(o)) == 0 && SumBy(outbox, OutcomeFor(o)) == 0
  {
    if outbox != [] {
      NoRows(outbox[1..], o);
    }
  }

  lemma {:induction false} NoMails(emails: seq<Notification.LogKey>, o: string)
    requires forall i :: 0 <= i < |emails| ==> emails[i].orderId != o
    ensures SumBy(emails, MailFor(o)) == 0
  {
    if emails != [] {
      NoMails(emails[1..], o);
    }
  }

  lemma FreshKeysUnused(w: World, sagaId: string, purpose: Purpose)
    requires Wired(w)
    requires forall x :: x in w.order.sagas ==> w.order.sagas[x].id != sagaId
    ensures CommandKey(sagaId, purpose) !in w.product.keys
    ensures CommandKey(sagaId, purpose) !in w.payment.keys
  {
  }

  lemma NothingWrittenAbout(w: World, o: string)
    requires Inv(w) && o !in w.order.orders
    ensures forall i :: 0 <= i < |w.order.outbox| ==> w.order.outbox[i].orderId != o
  {
    hide Ok, Legal, ViewOf;
    forall i | 0 <= i < |w.order.outbox|
      ensures w.order.outbox[i].orderId != o
    {
      assert Written(w, w.order.outbox[i]);
    }
  }

  /** Nothing else is known about a new order. */
  lemma CreatedView(w: World, order: Order, saga: S.Saga, sent: Message)
    requires Inv(w) && Fresh(w, order, saga) && sent.orderId == order.id && !IsOutcome(sent)
    ensures var w' := Created(w, order, saga, sent);
            && order.id in w'.order.orders && order.id in w'.order.sagas
            && ViewOf(w', order.id) == View(order, saga, None, None, None, None, [], 1, 0, false, false, 0)
  {
    hide Ok, Legal, SumBy;
    var o := order.id;
    NothingWrittenAbout(w, o);
    NoRows(w.order.outbox, o);
    NoMails(w.notify.emails, o);
    CountsAppend(w.order.outbox, sent, o);
    FreshKeysUnused(w, saga.id, ForReserve);
    FreshKeysUnused(w, saga.id, ForRelease);
    FreshKeysUnused(w, saga.id, ForPayment);
  }

  lemma CreatedOtherViews(w: World, order: Order, saga: S.Saga, sent: Message, x: string)
    requires Inv(w) && Fresh(w, order, saga) && sent.orderId == order.id && x in w.order.orders
    ensures var w' := Created(w, order, saga, sent);
            && x in w'.order.orders && x in w'.order.sagas
            && ViewOf(w', x) == ViewOf(w, x)
  {
    hide OrdersOk, MessagesLegal, Anchored, PublishedWereWritten, SumBy;
    CountsAppend(w.order.outbox, sent, x);
  }

  lemma NewOrderIsOk(id: string, sagaId: string, userId: string, userEmail: string, correlationId: string,
                     lines: seq<Line>, itemIds: seq<string>, now: int)
    requires |itemIds| == |lines|
    ensures var order, saga := Create(id, userId, userEmail, lines, itemIds), S.Start(sagaId, id, correlationId, now);
            var v := View(order, saga, None, None, None, None, [], 1, 0, false, false, 0);
            Ok(v) && Legal(v, ReserveCommand(saga, lines))
  {
    hide MapSeq, SumBy;
  }

  lemma CreatedLegal(w: World, order: Order, saga: S.Saga, sent: Message, m: Message)
    requires Inv(w) && Fresh(w, order, saga) && sent.orderId == order.id && !IsOutcome(sent)
    requires Legal(View(order, saga, None, None, None, None, [], 1, 0, false, false, 0), sent)
    requires Wired(Created(w, order, saga, sent)) && Written(Created(w, order, saga, sent), m)
    ensures LegalHere(Created(w, order, saga, sent), m)
  {
    hide Ok, Legal, ViewOf, Wired, OrdersOk;
    if m == sent {
      CreatedView(w, order, saga, sent);
    } else {
      assert LegalHere(w, m);
      CreatedOtherViews(w, order, saga, sent, m.orderId);
    }
  }

  lemma CreatedKeeps(w: World, order: Order, saga: S.Saga, sent: Message)
    requires Inv(w) && Fresh(w, order, saga) && sent.orderId == order.id && !IsOutcome(sent)
    requires var v := View(order, saga, None, None, None, None, [], 1, 0, false, false, 0); Ok(v) && Legal(v, sent)
    ensures Keeps(w, Created(w, order, saga, sent))
  {
    hide Ok, Legal, Grows, ViewOf, Wired;
    var w' := Created(w, order, saga, sent);
    EveryOrderHasASaga(w);
    CreatedWired(w, order, saga, sent);
    EveryOrderHasASaga(w');
    CreatedView(w, order, saga, sent);
    forall x | x in w.order.orders
      ensures x in w'.order.orders && ViewOf(w', x) == ViewOf(w, x) && Grows(ViewOf(w, x), ViewOf(w', x))
    {
      CreatedOtherViews(w, order, saga, sent, x);
      GrowsReflexive(ViewOf(w, x));
    }
    forall m | Written(w', m)
      ensures LegalHere(w', m)
    {
      CreatedLegal(w, order, saga, sent, m);
    }
  }

  lemma OrderedKeeps(w: World, o: string, sagaId: string, userId: string, userEmail: string, correlationId: string,
                     lines: seq<Line>, itemIds: seq<string>, now: int)
    requires Inv(w) && o !in w.order.orders && |sagaId| == UUID_LENGTH && |itemIds| == |lines|
    requires forall x :: x in w.order.sagas ==> w.order.sagas[x].id != sagaId
    ensures Keeps(w, w.(order := CreateOrder(w.order, o, sagaId, userId, userEmail, correlationId, lines, itemIds, now)))
  {
    var order, saga := Create(o, userId, userEmail, lines, itemIds), S.Start(sagaId, o, correlationId, now);
    NewOrderIsOk(o, sagaId, userId, userEmail, correlationId, lines, itemIds, now);
    hide Inv, Ok, Legal, Grows, ViewOf;
    CreatedKeeps(w, order, saga, ReserveCommand(saga, lines));
  }
}
