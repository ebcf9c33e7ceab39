/** Every saga ends: the number of updates, poller visits and outbox rows of one order is bounded
    over every run, however long. */
module Termination {
  import opened Basics
  import opened OrderEntity
  import opened Messages
  import opened Orchestrator
  import opened World
  import opened Local
  import opened Invariant
  import opened OrderSteps
  import opened Ledger
  import opened Safety
  import opened Theorems
  import S = SagaEntity

  /** A run together with the events that made it. */
  ghost predicate Traced(ws: seq<World>, es: seq<Event>) {
    && |ws| == |es| + 1
    && Initial(ws[0])
    && forall i :: 0 <= i < |es| ==> Enabled(ws[i], es[i]) && ws[i + 1] == Happen(ws[i], es[i])
  }

  lemma TracedIsRun(ws: seq<World>, es: seq<Event>)
    requires Traced(ws, es)
    ensures Run(ws)
  {
    hide Enabled, Happen, Initial;
    forall i | 0 <= i < |ws| - 1
      ensures Next(ws[i], ws[i + 1])
    {
      assert Enabled(ws[i], es[i]) && ws[i + 1] == Happen(ws[i], es[i]);
    }
  }

  /** The saga row of the order changes between the two states. */
  predicate Updated(w: World, w': World, o: string) {
    o in w.order.sagas && o in w'.order.sagas && w'.order.sagas[o] != w.order.sagas[o]
  }

  /** The poller asks for the saga of the order and obtains it. */
  predicate Visited(w: World, e: Event, o: string) {
    e.Polled? && e.orderId == o && o in w.order.sagas && w.order.sagas[o].status == S.Running
  }

  function UpdateCount(ws: seq<World>, o: string, n: nat): nat
    requires n < |ws|
  {
    if n == 0 then 0 else UpdateCount(ws, o, n - 1) + if Updated(ws[n - 1], ws[n], o) then 1 else 0
  }

  function VisitCount(ws: seq<World>, es: seq<Event>, o: string, n: nat): nat
    requires n < |ws| && n <= |es|
  {
    if n == 0 then 0 else VisitCount(ws, es, o, n - 1) + if Visited(ws[n - 1], es[n - 1], o) then 1 else 0
  }

  const MAX_UPDATES: nat := 6
  const MAX_VISITS: nat := 4

  /** How many visits can still obtain the saga. */
  function VisitsLeft(saga: S.Saga): int {
    if saga.status == S.Running then MAX_VISITS - saga.retryCount else 0
  }

  /** What is left of both budgets; all of it while the order does not exist. */
  function UpdateBudget(w: World, o: string): int {
    if o in w.order.sagas then S.UpdatesLeft(w.order.sagas[o]) else MAX_UPDATES
  }

  function VisitBudget(w: World, o: string): int {
    if o in w.order.sagas then VisitsLeft(w.order.sagas[o]) else MAX_VISITS
  }

  lemma NewSagaHasFullBudget(w: World, e: Event, o: string)
    requires Inv(w) && Enabled(w, e) && o !in w.order.sagas && o in Happen(w, e).order.sagas
    ensures UpdateBudget(Happen(w, e), o) <= MAX_UPDATES && VisitBudget(Happen(w, e), o) <= MAX_VISITS
  {
    hide OrdersOk, MessagesLegal, Happen;
    EventKeeps(w, e);
    SagaIsCoherent(Happen(w, e), o);
  }

  lemma SagaIsCoherent(w: World, o: string)
    requires Inv(w) && o in w.order.sagas
    ensures S.Coherent(w.order.sagas[o])
  {
    assert Ok(ViewOf(w, o));
  }

  lemma SagaGrows(w: World, e: Event, o: string)
    requires Inv(w) && Enabled(w, e) && o in w.order.sagas
    ensures var w' := Happen(w, e);
            && o in w'.order.sagas
            && var a, b := w.order.sagas[o], w'.order.sagas[o];
               && (b != a ==> S.UpdatesLeft(b) < S.UpdatesLeft(a))
               && a.retryCount <= b.retryCount
               && (a.status != S.Running ==> b == a)
  {
    hide Happen, Enabled, OrdersOk, MessagesLegal, SumBy, MapSeq;
    EventKeeps(w, e);
    assert Grows(ViewOf(w, o), ViewOf(Happen(w, e), o));
  }

  lemma VisitUsesBudget(w: World, e: Event, o: string)
    requires Inv(w) && Enabled(w, e) && Visited(w, e, o)
    ensures o in Happen(w, e).order.sagas
    ensures VisitBudget(Happen(w, e), o) < VisitBudget(w, o)
  {
    hide OrdersOk, MessagesLegal, Anchored, PublishedWereWritten, PollOne, Receive, CreateOrder;
    SagaIsCoherent(w, o);
    OneVisit(w.order, o, e.now);
  }

  /** One event takes from the budgets what it uses, and never adds to them. */
  lemma BudgetsShrink(w: World, e: Event, o: string)
    requires Inv(w) && Enabled(w, e)
    ensures UpdateBudget(Happen(w, e), o) + (if Updated(w, Happen(w, e), o) then 1 else 0) <= UpdateBudget(w, o)
    ensures VisitBudget(Happen(w, e), o) + (if Visited(w, e, o) then 1 else 0) <= VisitBudget(w, o)
    ensures UpdateBudget(w, o) >= 0 && VisitBudget(w, o) >= 0
  {
    hide Happen, Enabled, OrdersOk, MessagesLegal, Anchored;
    if o in w.order.sagas {
      SagaIsCoherent(w, o);
      SagaGrows(w, e, o);
      if Visited(w, e, o) {
        VisitUsesBudget(w, e, o);
      }
    } else if o in Happen(w, e).order.sagas {
      NewSagaHasFullBudget(w, e, o);
    }
  }

  lemma {:induction false} BudgetsHold(ws: seq<World>, es: seq<Event>, o: string, n: nat)
    requires Traced(ws, es) && n <= |es|
    ensures UpdateCount(ws, o, n) + UpdateBudget(ws[n], o) <= MAX_UPDATES
    ensures VisitCount(ws, es, o, n) + VisitBudget(ws[n], o) <= MAX_VISITS
  {
    hide Inv, Happen, Enabled, Updated, Visited, UpdateBudget, VisitBudget, StockBalanced, MoneyBalanced;
    if n == 0 {
      FullBudgetAtStart(ws[0], o);
    } else {
      BudgetsHold(ws, es, o, n - 1);
      TracedIsRun(ws, es);
      RunIsSafe(ws, n - 1);
      BudgetsShrink(ws[n - 1], es[n - 1], o);
    }
  }

  lemma FullBudgetAtStart(w: World, o: string)
    requires Initial(w)
    ensures UpdateBudget(w, o) == MAX_UPDATES && VisitBudget(w, o) == MAX_VISITS
  {
  }

  /** Over every run, a saga is updated at most six times, the poller obtains it at most four
      times, and at most seven order-service outbox rows are ever written about its order. */
  lemma EverySagaEnds(ws: seq<World>, es: seq<Event>, o: string)
    requires Traced(ws, es)
    ensures UpdateCount(ws, o, |es|) <= MAX_UPDATES
    ensures VisitCount(ws, es, o, |es|) <= MAX_VISITS
    ensures o in ws[|es|].order.orders ==> SumBy(ws[|es|].order.outbox, RowFor(o)) <= MAX_ROWS
  {
    hide Traced, SumBy, MapSeq, ItemLines, PricedLines, ItemsTotal, Next, Initial, UpdateCount, VisitCount;
    var n := |es|;
    assert |ws| == n + 1 by { TracedLength(ws, es); }
    BudgetsHold(ws, es, o, n);
    TracedIsRun(ws, es);
    RunIsSafe(ws, n);
    if o in ws[n].order.orders {
      AnyOrder(ws, n, n, o);
    }
    BudgetsNonNegative(ws[n], o);
  }

  lemma TracedLength(ws: seq<World>, es: seq<Event>)
    requires Traced(ws, es)
    ensures |ws| == |es| + 1
  {
  }

  lemma BudgetsNonNegative(w: World, o: string)
    requires Inv(w)
    ensures UpdateBudget(w, o) >= 0 && VisitBudget(w, o) >= 0
  {
    hide OrdersOk, MessagesLegal;
    if o in w.order.sagas {
      SagaIsCoherent(w, o);
    }
  }

  /** Completed and failed sagas never change again, nor do the statuses of their orders. */
  lemma EndedSagasStay(ws: seq<World>, i: nat, j: nat, o: string)
    requires Run(ws) && i <= j < |ws| && o in ws[i].order.orders
    ensures o in ws[i].order.sagas && o in ws[j].order.sagas
    ensures ws[i].order.sagas[o].status != S.Running ==> ws[j].order.sagas[o] == ws[i].order.sagas[o]
    ensures o in ws[j].order.orders
    ensures ws[i].order.sagas[o].status != S.Running ==> ws[j].order.orders[o].status == ws[i].order.orders[o].status
  {
    hide Ok, SumBy, MapSeq, ItemLines, Next, Initial;
    AnyOrder(ws, i, j, o);
  }

  // ---- how a saga fails ----

  /** The saga of the order is running in one state of the tables and failed in the other. */
  predicate Fails(db: OrderDb, after: OrderDb, o: string) {
    o in db.sagas && db.sagas[o].status == S.Running && o in after.sagas && after.sagas[o].status == S.Aborted
  }

  /** A cancellation in this transaction, if the saga fails in it. */
  predicate CancelsIfFails(db: OrderDb, after: OrderDb, o: string) {
    Fails(db, after, o) ==> o in after.orders && after.orders[o].status == Cancelled
  }

  lemma CancellationCancels(db: OrderDb, x: string, reason: string, o: string)
    requires Linked(db) && x in db.sagas
    ensures CancelsIfFails(db, Commit(PerformCancellation(db, db.sagas[x], x, reason), db), o)
  {
    hide MapSeq;
  }

  lemma StockReservedNeverFails(db: OrderDb, m: Message, now: int, o: string)
    requires Linked(db) && m.StockReserved?
    ensures CancelsIfFails(db, Commit(OnStockReserved(db, m, now), db), o)
  {
    hide MapSeq;
  }

  lemma StockReplyFailsByCancelling(db: OrderDb, m: Message, o: string)
    requires Linked(db)
    ensures m.StockReservationFailed? ==> CancelsIfFails(db, Commit(OnStockReservationFailed(db, m), db), o)
    ensures m.StockReleased? ==> CancelsIfFails(db, Commit(OnStockReleased(db, m), db), o)
  {
    hide MapSeq, PerformCancellation, Linked;
    if m.StockReservationFailed? && m.orderId in db.sagas {
      CancellationCancels(db, m.orderId, m.reason, o);
    } else if m.StockReleased? && m.orderId in db.sagas {
      var error := db.sagas[m.orderId].lastError;
      CancellationCancels(db, m.orderId, if error.Some? then error.value else DEFAULT_REASON, o);
    }
  }

  lemma PaymentReplyNeverFails(db: OrderDb, m: Message, now: int, o: string)
    requires Linked(db)
    ensures m.PaymentProcessed? ==> CancelsIfFails(db, Commit(OnPaymentProcessed(db, m, now), db), o)
    ensures m.PaymentFailed? ==> CancelsIfFails(db, Commit(OnPaymentFailed(db, m, now), db), o)
  {
    hide MapSeq, ItemLines;
  }

  lemma DeliveryFailsByCancelling(w: World, m: Message, now: int, txn: string, o: string)
    requires Linked(w.order)
    ensures CancelsIfFails(w.order, Receive(w, m, now, txn).order, o)
  {
    hide Linked, OnStockReserved, OnStockReservationFailed, OnStockReleased, OnPaymentProcessed, OnPaymentFailed;
    if m.StockReserved? {
      StockReservedNeverFails(w.order, m, now, o);
    }
    StockReplyFailsByCancelling(w.order, m, o);
    PaymentReplyNeverFails(w.order, m, now, o);
  }

  lemma VisitLeavesOthers(db: OrderDb, visited: string, now: int, o: string)
    requires Linked(db) && o in db.sagas && visited != o
    ensures o in Commit(PollOne(db, visited, now), db).sagas
    ensures Commit(PollOne(db, visited, now), db).sagas[o] == db.sagas[o]
  {
    if visited in db.sagas && db.sagas[visited].status == S.Running {
      hide PollOne;
      OneVisit(db, visited, now);
    }
  }

  lemma RunningIsNotCancelled(w: World, o: string)
    requires Inv(w) && o in w.order.orders && o in w.order.sagas && w.order.sagas[o].status == S.Running
    ensures w.order.orders[o].status != Cancelled
  {
    hide Wired, OrdersOk, MessagesLegal, SumBy, MapSeq, ItemLines, PricedLines, ItemsTotal, OnePricePerProduct, PricedTotal;
    OrderIsOk(w, o);
  }

  lemma VisitGivesUp(db: OrderDb, visited: string, now: int, o: string)
    requires Linked(db) && o in db.orders && Fails(db, Commit(PollOne(db, visited, now), db), o)
    ensures visited == o && S.HasExceededMaxRetries(db.sagas[o])
    ensures Commit(PollOne(db, visited, now), db).orders == db.orders
  {
    hide PollOne;
    if visited == o {
      OneVisit(db, o, now);
    } else {
      VisitLeavesOthers(db, visited, now, o);
    }
  }

  /** A failing saga cancels its order, unless it is the poller that finds the retries used up:
      known from the saga and the event before the step. */
  lemma FailingCancelsIff(w: World, e: Event, o: string)
    requires Inv(w) && Enabled(w, e) && o in w.order.orders && Fails(w.order, Happen(w, e).order, o)
    ensures OrderIs(Happen(w, e), o, Cancelled) <==> !(Visited(w, e, o) && S.HasExceededMaxRetries(w.order.sagas[o]))
  {
    hide OrdersOk, MessagesLegal, Anchored, PublishedWereWritten, Linked, PollOne, Receive;
    RunningIsNotCancelled(w, o);
    if e.Polled? {
      VisitGivesUp(w.order, e.orderId, e.now, o);
    } else if e.Delivered? {
      DeliveryFailsByCancelling(w, e.message, e.now, e.transactionId, o);
    }
  }
}
