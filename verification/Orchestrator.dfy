/** order-service as the saga's orchestrator: order creation, the five reply handlers and the
    retry poller. Each function is one database transaction over the orders, the sagas and the
    outbox. The saga row has a unique `orderId`, so both tables are keyed by the order. */
module Orchestrator {
  import opened Basics
  import opened OrderEntity
  import opened Messages
  import S = SagaEntity

  datatype OrderDb = OrderDb(orders: map<string, Order>, sagas: map<string, S.Saga>, outbox: seq<Message>)

  const ORDER_NOT_FOUND := "Order not found"

  function Write(db: OrderDb, m: Message): OrderDb {
    db.(outbox := db.outbox + [m])
  }

  function PutSaga(db: OrderDb, saga: S.Saga): OrderDb {
    db.(sagas := db.sagas[saga.orderId := saga])
  }

  function PutOrder(db: OrderDb, order: Order): OrderDb {
    db.(orders := db.orders[order.id := order])
  }

  // ---- commands ----

  function ReserveCommand(saga: S.Saga, lines: seq<Line>): Message {
    ReserveStock(CommandKey(saga.id, ForReserve), saga.orderId, saga.correlationId, lines)
  }

  function PayCommand(saga: S.Saga, orderId: string, userId: string, amount: Money): Message {
    ProcessPayment(CommandKey(saga.id, ForPayment), orderId, saga.correlationId, userId, amount)
  }

  function ReleaseCommand(saga: S.Saga, orderId: string, lines: seq<Line>): Message {
    ReleaseStock(CommandKey(saga.id, ForRelease), orderId, saga.correlationId, lines)
  }

  // ---- transactions ----

  function CreateOrder(db: OrderDb, orderId: string, sagaId: string, userId: string, userEmail: string,
                       correlationId: string, lines: seq<Line>, itemIds: seq<string>, now: int): OrderDb
    requires |itemIds| == |lines|
  {
    var order := Create(orderId, userId, userEmail, lines, itemIds);
    var saga := S.Start(sagaId, orderId, correlationId, now);
    Write(PutSaga(PutOrder(db, order), saga), ReserveCommand(saga, lines))
  }

  /** The saga of an order, if it is running and waiting for this step. */
  function LoadSagaForStep(db: OrderDb, orderId: string, step: S.Step): Option<S.Saga> {
    if orderId in db.sagas && S.CanHandle(db.sagas[orderId], step) then Some(db.sagas[orderId]) else None
  }

  function OnStockReserved(db: OrderDb, event: Message, now: int): Outcome<OrderDb>
    requires event.StockReserved?
  {
    match LoadSagaForStep(db, event.orderId, S.ReserveStock)
    case None => Done(db)
    case Some(saga) =>
      if event.orderId !in db.orders then Threw(ORDER_NOT_FOUND)
      else
        var order := db.orders[event.orderId];
        match Confirm(order, event.total, event.items)
        case Threw(e) => Threw(e)
        case Done(confirmed) =>
          match S.Advance(saga, now)
          case Threw(e) => Threw(e)
          case Done(advanced) =>
            Done(Write(PutSaga(PutOrder(db, confirmed), advanced),
                       PayCommand(saga, event.orderId, order.userId, event.total)))
  }

  function PerformCancellation(db: OrderDb, saga: S.Saga, orderId: string, reason: string): Outcome<OrderDb> {
    if orderId !in db.orders then Threw(ORDER_NOT_FOUND)
    else
      var order := db.orders[orderId];
      match Compensate(order)
      case Threw(e) => Threw(e)
      case Done(cancelled) =>
        Done(Write(PutSaga(PutOrder(db, cancelled), S.Fail(saga, reason)),
                   OrderCancelled(order.id, order.userId, order.userEmail, saga.correlationId, reason)))
  }

  function OnStockReservationFailed(db: OrderDb, event: Message): Outcome<OrderDb>
    requires event.StockReservationFailed?
  {
    match LoadSagaForStep(db, event.orderId, S.ReserveStock)
    case None => Done(db)
    case Some(saga) => PerformCancellation(db, saga, event.orderId, event.reason)
  }

  function OnPaymentProcessed(db: OrderDb, event: Message, now: int): Outcome<OrderDb>
    requires event.PaymentProcessed?
  {
    match LoadSagaForStep(db, event.orderId, S.ProcessPayment)
    case None => Done(db)
    case Some(saga) =>
      match S.Advance(saga, now)
      case Threw(e) => Threw(e)
      case Done(advanced) =>
        if event.orderId !in db.orders then Threw(ORDER_NOT_FOUND)
        else
          var order := db.orders[event.orderId];
          Done(Write(PutSaga(db, advanced),
                     OrderConfirmed(order.id, order.userId, order.userEmail, saga.correlationId,
                                    MapSeq(order.items, ItemPriced()), order.total)))
  }

  function OnPaymentFailed(db: OrderDb, event: Message, now: int): Outcome<OrderDb>
    requires event.PaymentFailed?
  {
    match LoadSagaForStep(db, event.orderId, S.ProcessPayment)
    case None => Done(db)
    case Some(saga) =>
      if event.orderId !in db.orders then Threw(ORDER_NOT_FOUND)
      else
        var order := db.orders[event.orderId];
        Done(Write(PutSaga(db, S.StartCompensation(saga, event.reason, now)),
                   ReleaseCommand(saga, event.orderId, ItemLines(order.items))))
  }

  const DEFAULT_REASON := "Payment failed"

  function OnStockReleased(db: OrderDb, event: Message): Outcome<OrderDb>
    requires event.StockReleased?
  {
    match LoadSagaForStep(db, event.orderId, S.ReleaseStock)
    case None => Done(db)
    case Some(saga) =>
      PerformCancellation(db, saga, event.orderId,
                          if saga.lastError.Some? then saga.lastError.value else DEFAULT_REASON)
  }

  /** The command of the current step, again. */
  function Resend(db: OrderDb, saga: S.Saga, order: Order): OrderDb {
    match saga.step
    case ReserveStock => Write(db, ReserveCommand(saga, ItemLines(order.items)))
    case ProcessPayment => Write(db, PayCommand(saga, saga.orderId, order.userId, order.total))
    case ReleaseStock => Write(db, ReleaseCommand(saga, saga.orderId, ItemLines(order.items)))
    case _ => db
  }

  /** One visit of the poller: the row is reloaded if it is still running, whatever its retry
      clock says by now. */
  function PollOne(db: OrderDb, orderId: string, now: int): Outcome<OrderDb> {
    if orderId !in db.sagas || db.sagas[orderId].status != S.Running then Done(db)
    else
      var saga := db.sagas[orderId];
      if S.HasExceededMaxRetries(saga) then Done(PutSaga(db, S.Fail(saga, S.RETRIES_EXHAUSTED)))
      else if saga.orderId !in db.orders then Threw(ORDER_NOT_FOUND)
      else Done(Resend(PutSaga(db, S.ScheduleRetry(saga, now)), saga, db.orders[saga.orderId]))
  }

  /** Visits in turn, each its own transaction; a visit that throws is skipped. */
  function PollAll(db: OrderDb, orderIds: seq<string>, now: int): OrderDb
    decreases |orderIds|
  {
    if orderIds == [] then db
    else PollAll(Commit(PollOne(db, orderIds[0], now), db), orderIds[1..], now)
  }

  const POLL_LIMIT: nat := 10

  ghost predicate Stuck(db: OrderDb, orderId: string, now: int) {
    && orderId in db.sagas
    && db.sagas[orderId].status == S.Running
    && db.sagas[orderId].nextRetryAt.Some?
    && db.sagas[orderId].nextRetryAt.value <= now
  }

  /** The orchestrator with its three tables. A handler reports the error of a rolled-back
      transaction. */
  class Service {
    var orders: map<string, Order>
    var sagas: map<string, S.Saga>
    var outbox: seq<Message>

    function Db(): OrderDb
      reads this
    {
      OrderDb(orders, sagas, outbox)
    }

    constructor ()
      ensures Db() == OrderDb(map[], map[], [])
    {
      orders, sagas, outbox := map[], map[], [];
    }

    method Rollback(before: OrderDb)
      modifies this
      ensures Db() == before
    {
      orders, sagas, outbox := before.orders, before.sagas, before.outbox;
    }

    method Execute(orderId: string, sagaId: string, userId: string, userEmail: string, correlationId: string,
                   lines: seq<Line>, itemIds: seq<string>, now: int)
      requires |itemIds| == |lines|
      modifies this
      ensures Db() == CreateOrder(old(Db()), orderId, sagaId, userId, userEmail, correlationId, lines, itemIds, now)
    {
      orders := orders[orderId := Create(orderId, userId, userEmail, lines, itemIds)];
      var saga := S.Start(sagaId, orderId, correlationId, now);
      sagas := sagas[orderId := saga];
      outbox := outbox + [ReserveCommand(saga, lines)];
    }

    method StockReservedHandler(event: Message, now: int) returns (error: Option<string>)
      requires event.StockReserved?
      modifies this
      ensures Db() == Commit(OnStockReserved(old(Db()), event, now), old(Db()))
      ensures error.Some? <==> OnStockReserved(old(Db()), event, now).Threw?
    {
      var before := Db();
      var saga := LoadSagaForStep(before, event.orderId, S.ReserveStock);
      if saga.None? {
        return None;
      }
      if event.orderId !in orders {
        return Some(ORDER_NOT_FOUND);
      }
      var order := orders[event.orderId];
      var confirmed := Confirm(order, event.total, event.items);
      if confirmed.Threw? {
        return Some(confirmed.error);
      }
      orders := orders[confirmed.value.id := confirmed.value];
      var advanced := S.Advance(saga.value, now);
      if advanced.Threw? {
        Rollback(before);
        return Some(advanced.error);
      }
      sagas := sagas[advanced.value.orderId := advanced.value];
      outbox := outbox + [PayCommand(saga.value, event.orderId, order.userId, event.total)];
      error := None;
    }

    method Cancel(saga: S.Saga, orderId: string, reason: string) returns (error: Option<string>)
      modifies this
      ensures Db() == Commit(PerformCancellation(old(Db()), saga, orderId, reason), old(Db()))
      ensures error.Some? <==> PerformCancellation(old(Db()), saga, orderId, reason).Threw?
    {
      if orderId !in orders {
        return Some(ORDER_NOT_FOUND);
      }
      var order := orders[orderId];
      var cancelled := Compensate(order);
      if cancelled.Threw? {
        return Some(cancelled.error);
      }
      orders := orders[cancelled.value.id := cancelled.value];
      var failed := S.Fail(saga, reason);
      sagas := sagas[failed.orderId := failed];
      outbox := outbox + [OrderCancelled(order.id, order.userId, order.userEmail, saga.correlationId, reason)];
      error := None;
    }

    method StockReservationFailedHandler(event: Message) returns (error: Option<string>)
      requires event.StockReservationFailed?
      modifies this
      ensures Db() == Commit(OnStockReservationFailed(old(Db()), event), old(Db()))
      ensures error.Some? <==> OnStockReservationFailed(old(Db()), event).Threw?
    {
      var saga := LoadSagaForStep(Db(), event.orderId, S.ReserveStock);
      if saga.None? {
        return None;
      }
      error := Cancel(saga.value, event.orderId, event.reason);
    }

    method PaymentProcessedHandler(event: Message, now: int) returns (error: Option<string>)
      requires event.PaymentProcessed?
      modifies this
      ensures Db() == Commit(OnPaymentProcessed(old(Db()), event, now), old(Db()))
      ensures error.Some? <==> OnPaymentProcessed(old(Db()), event, now).Threw?
    {
      var before := Db();
      var saga := LoadSagaForStep(before, event.orderId, S.ProcessPayment);
      if saga.None? {
        return None;
      }
      var advanced := S.Advance(saga.value, now);
      if advanced.Threw? {
        return Some(advanced.error);
      }
      sagas := sagas[advanced.value.orderId := advanced.value];
      if event.orderId !in orders {
        Rollback(before);
        return Some(ORDER_NOT_FOUND);
      }
      var order := orders[event.orderId];
      outbox := outbox + [OrderConfirmed(order.id, order.userId, order.userEmail, saga.value.correlationId,
                                         MapSeq(order.items, ItemPriced()), order.total)];
      error := None;
    }

    method PaymentFailedHandler(event: Message, now: int) returns (error: Option<string>)
      requires event.PaymentFailed?
      modifies this
      ensures Db() == Commit(OnPaymentFailed(old(Db()), event, now), old(Db()))
      ensures error.Some? <==> OnPaymentFailed(old(Db()), event, now).Threw?
    {
      var before := Db();
      var saga := LoadSagaForStep(before, event.orderId, S.ProcessPayment);
      if saga.None? {
        return None;
      }
      var compensating := S.StartCompensation(saga.value, event.reason, now);
      sagas := sagas[compensating.orderId := compensating];
      if event.orderId !in orders {
        Rollback(before);
        return Some(ORDER_NOT_FOUND);
      }
      outbox := outbox + [ReleaseCommand(saga.value, event.orderId, ItemLines(orders[event.orderId].items))];
      error := None;
    }

    method StockReleasedHandler(event: Message) returns (error: Option<string>)
      requires event.StockReleased?
      modifies this
      ensures Db() == Commit(OnStockReleased(old(Db()), event), old(Db()))
      ensures error.Some? <==> OnStockReleased(old(Db()), event).Threw?
    {
      var saga := LoadSagaForStep(Db(), event.orderId, S.ReleaseStock);
      if saga.None? {
        return None;
      }
      var reason := match saga.value.lastError case Some(e) => e case None => DEFAULT_REASON;
      error := Cancel(saga.value, event.orderId, reason);
    }

    /** Up to `limit` due sagas, in any order. */
    method FindStuck(limit: nat, now: int) returns (stuck: seq<string>)
      ensures |stuck| <= limit
      ensures forall i :: 0 <= i < |stuck| ==> Stuck(Db(), stuck[i], now)
      ensures forall i, j :: 0 <= i < j < |stuck| ==> stuck[i] != stuck[j]
      ensures |stuck| < limit ==> forall o :: Stuck(Db(), o, now) ==> o in stuck
    {
      stuck := [];
      var due := set o | o in sagas && sagas[o].status == S.Running && sagas[o].nextRetryAt.Some?
                         && sagas[o].nextRetryAt.value <= now;
      var left := due;
      while left != {} && |stuck| < limit
        invariant |stuck| <= limit
        invariant left <= due
        invariant forall o :: o in due <==> o in left || o in stuck
        invariant forall i :: 0 <= i < |stuck| ==> stuck[i] !in left && stuck[i] in due
        invariant forall i, j :: 0 <= i < j < |stuck| ==> stuck[i] != stuck[j]
        decreases left
      {
        var o :| o in left;
        left := left - {o};
        stuck := stuck + [o];
      }
    }

    /** The poller: reschedule and resend each stuck saga, or give it up, one transaction each. */
    method RetryStuckSagas(now: int) returns (ghost visited: seq<string>)
      modifies this
      ensures |visited| <= 10
      ensures forall i :: 0 <= i < |visited| ==> Stuck(old(Db()), visited[i], now)
      ensures forall i, j :: 0 <= i < j < |visited| ==> visited[i] != visited[j]
      ensures |visited| < 10 ==> forall o :: Stuck(old(Db()), o, now) ==> o in visited
      ensures Db() == PollAll(old(Db()), visited, now)
    {
      var stuck := FindStuck(POLL_LIMIT, now);
      visited := stuck;
      for i := 0 to |stuck|
        invariant PollAll(old(Db()), stuck, now) == PollAll(Db(), stuck[i..], now)
      {
        assert stuck[i..][1..] == stuck[i + 1..];
        RetryOne(stuck[i], now);
      }
    }

    method RetryOne(orderId: string, now: int)
      modifies this
      ensures Db() == Commit(PollOne(old(Db()), orderId, now), old(Db()))
    {
      if orderId !in sagas || sagas[orderId].status != S.Running {
        return;
      }
      var before := Db();
      var saga := sagas[orderId];
      if S.HasExceededMaxRetries(saga) {
        sagas := sagas[saga.orderId := S.Fail(saga, S.RETRIES_EXHAUSTED)];
        return;
      }
      sagas := sagas[saga.orderId := S.ScheduleRetry(saga, now)];
      if saga.orderId !in orders {
        Rollback(before);
        return;
      }
      var order := orders[saga.orderId];
      if saga.step == S.ReserveStock {
        outbox := outbox + [ReserveCommand(saga, ItemLines(order.items))];
      }
      if saga.step == S.ProcessPayment {
        outbox := outbox + [PayCommand(saga, saga.orderId, order.userId, order.total)];
      }
      if saga.step == S.ReleaseStock {
        outbox := outbox + [ReleaseCommand(saga, saga.orderId, ItemLines(order.items))];
      }
    }
  }
}
