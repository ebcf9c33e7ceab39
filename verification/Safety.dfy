/** Every event of the system keeps the invariant and both conservation laws, and therefore so
    does every run. */
module Safety {
  import opened Basics
  import opened OrderEntity
  import opened Messages
  import opened Stock
  import opened Orchestrator
  import opened PaymentService
  import opened Notification
  import opened World
  import opened Local
  import opened Invariant
  import opened OrderSteps
  import opened ParticipantSteps
  import opened Ledger
  import S = SagaEntity

  ghost predicate Safe(w: World) {
    Inv(w) && StockBalanced(w) && MoneyBalanced(w)
  }

  lemma InitialIsSafe(w: World)
    requires Initial(w)
    ensures Safe(w)
  {
  }

  // ---- one event ----

  lemma ReceiveKeeps(w: World, m: Message, now: int, txn: string)
    requires Inv(w) && m in w.network
    ensures Keeps(w, Receive(w, m, now, txn))
  {
    hide Inv, Keeps, Reserve, ReleaseAll;
    match m
    case ReserveStock(_, _, _, _) => ReserveKeeps(w, m, now, txn);
    case ReleaseStock(_, _, _, _) => ReleaseKeeps(w, m, now, txn);
    case ProcessPayment(_, _, _, _, _) => PaymentKeeps(w, m, now, txn);
    case StockReserved(_, _, _, _, _) => StockReservedKeeps(w, m, now);
    case StockReservationFailed(_, _, _, _) => ReservationFailedKeeps(w, m);
    case StockReleased(_, _, _) => StockReleasedKeeps(w, m);
    case PaymentProcessed(_, _, _, _) => PaymentProcessedKeeps(w, m, now);
    case PaymentFailed(_, _, _, _) => PaymentFailedKeeps(w, m, now);
    case OrderConfirmed(_, _, _, _, _, _) => NotifiedKeeps(w, m, now, txn);
    case OrderCancelled(_, _, _, _, _) => NotifiedKeeps(w, m, now, txn);
  }

  lemma EventKeeps(w: World, e: Event)
    requires Inv(w) && Enabled(w, e)
    ensures Keeps(w, Happen(w, e))
  {
    hide OrdersOk, MessagesLegal, Keeps, Receive, Linked, Anchored;
    match e
    case Ordered(o, sagaId, userId, userEmail, correlationId, lines, itemIds, now) =>
      OrderedKeeps(w, o, sagaId, userId, userEmail, correlationId, lines, itemIds, now);
    case Delivered(m, now, txn) => ReceiveKeeps(w, m, now, txn);
    case Polled(o, now) => PolledKeeps(w, o, now);
    case Reloaded(o, items) => ReloadedKeeps(w, o, items);
    case RolledBack => StutterKeeps(w);
    case Published(_) => EnvironmentKeeps(w, Happen(w, e));
    case Registered(_, _) => EnvironmentKeeps(w, Happen(w, e));
    case ToppedUp(_, _) => EnvironmentKeeps(w, Happen(w, e));
    case ProductAdded(_, _, _, _) => EnvironmentKeeps(w, Happen(w, e));
    case ProductEdited(_, _, _) => EnvironmentKeeps(w, Happen(w, e));
    case ProductRemoved(_) => EnvironmentKeeps(w, Happen(w, e));
  }

  /** Handlers and the poller update existing orders only. */
  lemma StockReplyKeepsKeys(db: OrderDb, m: Message, now: int)
    requires Linked(db)
    ensures m.StockReserved? ==> Commit(OnStockReserved(db, m, now), db).orders.Keys == db.orders.Keys
    ensures m.StockReservationFailed? ==> Commit(OnStockReservationFailed(db, m), db).orders.Keys == db.orders.Keys
    ensures m.StockReleased? ==> Commit(OnStockReleased(db, m), db).orders.Keys == db.orders.Keys
  {
    hide MapSeq;
  }

  lemma PaymentReplyKeepsKeys(db: OrderDb, m: Message, now: int)
    requires Linked(db)
    ensures m.PaymentProcessed? ==> Commit(OnPaymentProcessed(db, m, now), db).orders.Keys == db.orders.Keys
    ensures m.PaymentFailed? ==> Commit(OnPaymentFailed(db, m, now), db).orders.Keys == db.orders.Keys
  {
    hide MapSeq;
  }

  /** A reply or outcome touches no other service's tables. */
  lemma ReplyTouchesOrdersOnly(w: World, m: Message, now: int, txn: string)
    requires Linked(w.order) && (IsReply(m) || IsOutcome(m))
    ensures var w' := Receive(w, m, now, txn);
            && w'.order.orders.Keys == w.order.orders.Keys
            && w'.product == w.product && w'.payment == w.payment
            && w'.leaks == w.leaks && w'.supplied == w.supplied && w'.deposited == w.deposited
  {
    hide Linked, OnStockReserved, OnStockReservationFailed, OnStockReleased, OnPaymentProcessed, OnPaymentFailed,
      Notify;
    StockReplyKeepsKeys(w.order, m, now);
    PaymentReplyKeepsKeys(w.order, m, now);
  }

  lemma PollTouchesSagasOnly(db: OrderDb, o: string, now: int)
    ensures Commit(PollOne(db, o, now), db).orders == db.orders
  {
    hide MapSeq, ItemLines, Pow2;
  }

  lemma ReceiveStockBalanced(w: World, m: Message, now: int, txn: string)
    requires Inv(w) && StockBalanced(w) && m in w.network
    ensures StockBalanced(Receive(w, m, now, txn))
  {
    hide OrdersOk, MessagesLegal, Anchored, StockBalanced, Keeps, Reserve, ReleaseAll, OnStockReserved,
      OnStockReservationFailed, OnStockReleased, OnPaymentProcessed, OnPaymentFailed, Notify, Charge, Linked;
    var w' := Receive(w, m, now, txn);
    ReceiveKeeps(w, m, now, txn);
    if m.ReserveStock? && m.key !in w.product.keys {
      NewReserveBalanced(w, m);
    } else if m.ReleaseStock? && m.key !in w.product.keys {
      NewReleaseBalanced(w, m);
    } else {
      if IsReply(m) || IsOutcome(m) {
        ReplyTouchesOrdersOnly(w, m, now, txn);
      }
      BalancedWhenUntouched(w, w');
    }
  }

  lemma OrderedStockBalanced(w: World, e: Event)
    requires Inv(w) && StockBalanced(w) && e.Ordered? && Enabled(w, e)
    ensures StockBalanced(Happen(w, e))
  {
    hide OrdersOk, MessagesLegal, Anchored, StockBalanced;
    var order := Create(e.orderId, e.userId, e.userEmail, e.lines, e.itemIds);
    var saga := S.Start(e.sagaId, e.orderId, e.correlationId, e.now);
    CreatedBalanced(w, order, saga, ReserveCommand(saga, e.lines));
  }

  lemma EventStockBalanced(w: World, e: Event)
    requires Inv(w) && StockBalanced(w) && Enabled(w, e)
    ensures StockBalanced(Happen(w, e))
  {
    hide OrdersOk, MessagesLegal, Anchored, StockBalanced, Keeps, Receive, PollOne, CreateOrder;
    EventKeeps(w, e);
    var w' := Happen(w, e);
    match e
    case Ordered(_, _, _, _, _, _, _, _) => OrderedStockBalanced(w, e);
    case Delivered(m, now, txn) => ReceiveStockBalanced(w, m, now, txn);
    case ProductAdded(q, name, price, stock) => AddedBalanced(w, w', q, Product(name, price, stock, true));
    case Polled(o, now) =>
      PollTouchesSagasOnly(w.order, o, now);
      BalancedWhenUntouched(w, w');
    case Reloaded(o, _) => BalancedWhenUntouched(w, w');
    case Published(_) => BalancedWhenUntouched(w, w');
    case Registered(_, _) => BalancedWhenUntouched(w, w');
    case ToppedUp(_, _) => BalancedWhenUntouched(w, w');
    case ProductEdited(_, _, _) => BalancedWhenUntouched(w, w');
    case ProductRemoved(_) => BalancedWhenUntouched(w, w');
    case RolledBack =>
  }

  lemma ReceiveMoneyBalanced(w: World, m: Message, now: int, txn: string)
    requires Inv(w) && MoneyBalanced(w) && m in w.network
    ensures MoneyBalanced(Receive(w, m, now, txn))
  {
    hide OrdersOk, MessagesLegal, Wired, TotalCharged, Reserve, ReleaseAll, OnStockReserved, Notify, HandlePayment,
      OnStockReservationFailed, OnStockReleased, OnPaymentProcessed, OnPaymentFailed;
    if m.ProcessPayment? {
      PaymentStepBalanced(w, m, now, txn);
    }
  }

  lemma EventMoneyBalanced(w: World, e: Event)
    requires Inv(w) && MoneyBalanced(w) && Enabled(w, e)
    ensures MoneyBalanced(Happen(w, e))
  {
    hide OrdersOk, MessagesLegal, Anchored, TotalCharged, PollOne, CreateOrder, Receive;
    if e.Delivered? {
      ReceiveMoneyBalanced(w, e.message, e.now, e.transactionId);
    }
  }

  lemma EventIsSafe(w: World, e: Event)
    requires Safe(w) && Enabled(w, e)
    ensures Safe(Happen(w, e)) && Grown(w, Happen(w, e))
  {
    hide Wired, OrdersOk, MessagesLegal, StockBalanced, MoneyBalanced, Grown, Happen, Enabled;
    EventKeeps(w, e);
    EventStockBalanced(w, e);
    EventMoneyBalanced(w, e);
  }

  lemma NextIsSafe(w: World, w': World)
    requires Safe(w) && Next(w, w')
    ensures Safe(w') && Grown(w, w')
  {
    hide Safe, Grown, Happen, Enabled;
    var e :| Enabled(w, e) && w' == Happen(w, e);
    EventIsSafe(w, e);
  }

  // ---- runs ----

  /** Every state of every run is safe. */
  lemma {:induction false} RunIsSafe(ws: seq<World>, i: nat)
    requires Run(ws) && i < |ws|
    ensures Safe(ws[i])
  {
    hide Safe, Next, Initial;
    if i == 0 {
      InitialIsSafe(ws[0]);
    } else {
      RunIsSafe(ws, i - 1);
      assert Next(ws[i - 1], ws[i - 1 + 1]);
      NextIsSafe(ws[i - 1], ws[i]);
    }
  }

  lemma GrownTransitive(a: World, b: World, c: World)
    requires Wired(a) && Wired(b) && Wired(c) && Grown(a, b) && Grown(b, c)
    ensures Grown(a, c)
  {
    hide Ok, Grows, ViewOf;
    forall x | x in a.order.orders
      ensures x in c.order.orders && Grows(ViewOf(a, x), ViewOf(c, x))
    {
      GrowsTransitive(ViewOf(a, x), ViewOf(b, x), ViewOf(c, x));
    }
  }

  /** Nothing about an order is ever undone along a run. */
  lemma {:induction false} RunGrows(ws: seq<World>, i: nat, j: nat)
    requires Run(ws) && i <= j < |ws|
    ensures Safe(ws[i]) && Safe(ws[j]) && Grown(ws[i], ws[j])
    decreases j
  {
    hide Next, Initial, StockBalanced, MoneyBalanced, OrdersOk, MessagesLegal, Grown, Wired;
    RunIsSafe(ws, i);
    RunIsSafe(ws, j);
    if i == j {
      StutterKeeps(ws[i]);
    } else {
      RunGrows(ws, i, j - 1);
      assert Next(ws[j - 1], ws[j - 1 + 1]);
      NextIsSafe(ws[j - 1], ws[j]);
      GrownTransitive(ws[i], ws[j - 1], ws[j]);
    }
  }
}
