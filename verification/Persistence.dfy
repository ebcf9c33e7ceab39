/** order-service's repositories. An update writes only some columns, and item rows one by one;
    a load collects the item rows of an order in no particular order. */
module Persistence {
  import opened Basics
  import opened OrderEntity
  import S = SagaEntity

  datatype OrderRow = OrderRow(userId: string, userEmail: string, status: OrderStatus, total: Money)

  datatype ItemRow = ItemRow(orderId: string, productId: string, productName: string, quantity: nat, unitPrice: Money)

  datatype OrderTables = OrderTables(orders: map<string, OrderRow>, items: map<string, ItemRow>)

  predicate DistinctIds(items: seq<OrderItem>) {
    forall i, j :: 0 <= i < j < |items| ==> items[i].id != items[j].id
  }

  predicate NonEmptyIds(items: seq<OrderItem>) {
    forall i :: 0 <= i < |items| ==> items[i].id != ""
  }

  function RowOf(orderId: string, item: OrderItem): ItemRow {
    ItemRow(orderId, item.productId, item.productName, item.quantity, item.unitPrice)
  }

  /** `order` is what loading its id can return: the columns of its row, and every one of its item
      rows once, in some order. */
  ghost predicate Loads(db: OrderTables, order: Order) {
    && order.id in db.orders
    && db.orders[order.id] == OrderRow(order.userId, order.userEmail, order.status, order.total)
    && DistinctIds(order.items)
    && (forall i :: 0 <= i < |order.items| ==>
          order.items[i].id in db.items && db.items[order.items[i].id] == RowOf(order.id, order.items[i]))
    && (forall k :: k in db.items && db.items[k].orderId == order.id ==> HasItem(order.items, k))
  }

  ghost predicate HasItem(items: seq<OrderItem>, k: string) {
    exists i :: 0 <= i < |items| && items[i].id == k
  }

  /** `UPDATE order_items SET productName, unitPrice WHERE id`, skipped for an item without id. */
  function UpdateItem(rows: map<string, ItemRow>, item: OrderItem): map<string, ItemRow> {
    if item.id != "" && item.id in rows
    then rows[item.id := rows[item.id].(productName := item.productName, unitPrice := item.unitPrice)]
    else rows
  }

  function UpdateItems(rows: map<string, ItemRow>, items: seq<OrderItem>): map<string, ItemRow>
    decreases |items|
  {
    if items == [] then rows else UpdateItems(UpdateItem(rows, items[0]), items[1..])
  }

  /** `UPDATE orders SET status, total WHERE id`, and the items. */
  function Update(db: OrderTables, order: Order): OrderTables {
    OrderTables(
      if order.id in db.orders
      then db.orders[order.id := db.orders[order.id].(status := order.status, total := order.total)]
      else db.orders,
      UpdateItems(db.items, order.items))
  }

  class OrderRepository {
    var orders: map<string, OrderRow>
    var items: map<string, ItemRow>

    function Tables(): OrderTables
      reads this
    {
      OrderTables(orders, items)
    }

    method UpdateOrder(order: Order)
      modifies this
      ensures Tables() == Update(old(Tables()), order)
    {
      if order.id in orders {
        orders := orders[order.id := orders[order.id].(status := order.status, total := order.total)];
      }
      for i := 0 to |order.items|
        invariant orders == Update(old(Tables()), order).orders
        invariant UpdateItems(old(items), order.items) == UpdateItems(items, order.items[i..])
      {
        var item := order.items[i];
        assert order.items[i..][1..] == order.items[i + 1..];
        if item.id != "" && item.id in items {
          items := items[item.id := items[item.id].(productName := item.productName, unitPrice := item.unitPrice)];
        }
      }
    }
  }

  // ---- partial update refines replacement ----

  /** What an order transition never changes. */
  predicate SameShape(a: Order, b: Order) {
    && b.id == a.id && b.userId == a.userId && b.userEmail == a.userEmail
    && |b.items| == |a.items|
    && forall i :: 0 <= i < |a.items| ==>
         b.items[i].id == a.items[i].id && b.items[i].productId == a.items[i].productId
         && b.items[i].quantity == a.items[i].quantity
  }

  lemma TransitionsKeepShape(order: Order, total: Money, details: seq<PricedLine>)
    ensures Confirm(order, total, details).Done? ==> SameShape(order, Confirm(order, total, details).value)
    ensures Compensate(order).Done? ==> SameShape(order, Compensate(order).value)
  {
  }

  lemma HasItemTail(items: seq<OrderItem>, k: string)
    requires items != []
    ensures HasItem(items, k) <==> items[0].id == k || HasItem(items[1..], k)
  {
    if i :| 0 <= i < |items[1..]| && items[1..][i].id == k {
      assert items[i + 1].id == k;
    }
    if i :| 1 <= i < |items| && items[i].id == k {
      assert items[1..][i - 1].id == k;
    }
  }

  lemma SameItems(a: Order, b: Order, k: string)
    requires SameShape(a, b)
    ensures HasItem(a.items, k) <==> HasItem(b.items, k)
  {
    if i :| 0 <= i < |a.items| && a.items[i].id == k {
      assert b.items[i].id == k;
    }
    if i :| 0 <= i < |b.items| && b.items[i].id == k {
      assert a.items[i].id == k;
    }
  }

  lemma ItemsAreOwnRows(db: OrderTables, loaded: Order, k: string)
    requires Loads(db, loaded) && HasItem(loaded.items, k)
    ensures k in db.items && db.items[k].orderId == loaded.id
  {
    var i :| 0 <= i < |loaded.items| && loaded.items[i].id == k;
    assert db.items[loaded.items[i].id] == RowOf(loaded.id, loaded.items[i]);
  }

  lemma {:induction false} UpdatedItemRows(rows: map<string, ItemRow>, items: seq<OrderItem>)
    requires DistinctIds(items) && NonEmptyIds(items)
    ensures var after := UpdateItems(rows, items);
            && after.Keys == rows.Keys
            && (forall i :: 0 <= i < |items| && items[i].id in rows ==>
                  after[items[i].id] == rows[items[i].id].(productName := items[i].productName, unitPrice := items[i].unitPrice))
            && (forall k :: k in rows && !HasItem(items, k) ==> after[k] == rows[k])
    decreases |items|
  {
    if items != [] {
      var next, rest := UpdateItem(rows, items[0]), items[1..];
      UpdatedItemRows(next, rest);
      var after := UpdateItems(rows, items);
      assert !HasItem(rest, items[0].id);
      forall i | 0 <= i < |items| && items[i].id in rows
        ensures after[items[i].id] == rows[items[i].id].(productName := items[i].productName, unitPrice := items[i].unitPrice)
      {
        if i > 0 {
          assert rest[i - 1] == items[i];
          assert items[i].id != items[0].id;
        }
      }
      forall k | k in rows && !HasItem(items, k)
        ensures after[k] == rows[k]
      {
        HasItemTail(items, k);
      }
    }
  }

  /** Writing status, total, and each item's name and price, and then loading, gives back exactly
      the transitioned order; and what loads for any other order is unchanged. */
  lemma UpdateThenLoad(db: OrderTables, loaded: Order, changed: Order)
    requires Loads(db, loaded) && NonEmptyIds(loaded.items) && SameShape(loaded, changed)
    ensures Loads(Update(db, changed), changed)
  {
    var after := Update(db, changed);
    UpdatedItemRows(db.items, changed.items);
    forall i | 0 <= i < |changed.items|
      ensures changed.items[i].id in after.items
      ensures after.items[changed.items[i].id] == RowOf(changed.id, changed.items[i])
    {
      assert db.items[loaded.items[i].id] == RowOf(loaded.id, loaded.items[i]);
    }
    forall k | k in after.items && after.items[k].orderId == changed.id
      ensures HasItem(changed.items, k)
    {
      SameItems(loaded, changed, k);
    }
  }

  lemma RowsOfOthersUntouched(db: OrderTables, loaded: Order, changed: Order, k: string)
    requires Loads(db, loaded) && NonEmptyIds(loaded.items) && SameShape(loaded, changed)
    requires k in db.items && db.items[k].orderId != loaded.id
    ensures k in Update(db, changed).items && Update(db, changed).items[k] == db.items[k]
  {
    UpdatedItemRows(db.items, changed.items);
    SameItems(loaded, changed, k);
    if HasItem(loaded.items, k) {
      ItemsAreOwnRows(db, loaded, k);
    }
  }

  lemma OwnRowsStayOwn(db: OrderTables, loaded: Order, changed: Order, k: string)
    requires Loads(db, loaded) && NonEmptyIds(loaded.items) && SameShape(loaded, changed)
    ensures k in Update(db, changed).items <==> k in db.items
    ensures k in db.items ==> Update(db, changed).items[k].orderId == db.items[k].orderId
  {
    UpdatedItemRows(db.items, changed.items);
  }

  lemma UpdateLeavesOthers(db: OrderTables, loaded: Order, changed: Order, other: Order)
    requires Loads(db, loaded) && NonEmptyIds(loaded.items) && SameShape(loaded, changed)
    requires other.id != loaded.id
    ensures Loads(db, other) <==> Loads(Update(db, changed), other)
  {
    var after := Update(db, changed);
    forall k ensures k in after.items <==> k in db.items {
      OwnRowsStayOwn(db, loaded, changed, k);
    }
    forall k | k in db.items
      ensures after.items[k].orderId == db.items[k].orderId
      ensures db.items[k].orderId != loaded.id ==> after.items[k] == db.items[k]
    {
      OwnRowsStayOwn(db, loaded, changed, k);
      if db.items[k].orderId != loaded.id {
        RowsOfOthersUntouched(db, loaded, changed, k);
      }
    }
  }

  // ---- insert ----

  function InsertItems(rows: map<string, ItemRow>, orderId: string, items: seq<OrderItem>): map<string, ItemRow>
    decreases |items|
  {
    if items == [] then rows else InsertItems(rows[items[0].id := RowOf(orderId, items[0])], orderId, items[1..])
  }

  /** `save` of a new order, with the ids the database generates already in place. */
  function Insert(db: OrderTables, order: Order): OrderTables {
    OrderTables(db.orders[order.id := OrderRow(order.userId, order.userEmail, order.status, order.total)],
                InsertItems(db.items, order.id, order.items))
  }

  lemma {:induction false} InsertedItemRows(rows: map<string, ItemRow>, orderId: string, items: seq<OrderItem>)
    requires DistinctIds(items)
    ensures var after := InsertItems(rows, orderId, items);
            && (forall i :: 0 <= i < |items| ==> items[i].id in after && after[items[i].id] == RowOf(orderId, items[i]))
            && (forall k :: k in after ==> HasItem(items, k) || (k in rows && after[k] == rows[k]))
    decreases |items|
  {
    if items != [] {
      var next, rest, after := rows[items[0].id := RowOf(orderId, items[0])], items[1..], InsertItems(rows, orderId, items);
      InsertedItemRows(next, orderId, rest);
      InsertKeeps(next, orderId, rest, items[0].id);
      forall i | 0 <= i < |items|
        ensures items[i].id in after && after[items[i].id] == RowOf(orderId, items[i])
      {
        if i > 0 {
          assert rest[i - 1] == items[i];
        }
      }
      forall k | k in after
        ensures HasItem(items, k) || (k in rows && after[k] == rows[k])
      {
        HasItemTail(items, k);
      }
    }
  }

  lemma {:induction false} InsertKeeps(rows: map<string, ItemRow>, orderId: string, items: seq<OrderItem>, k: string)
    requires k in rows && forall i :: 0 <= i < |items| ==> items[i].id != k
    ensures k in InsertItems(rows, orderId, items) && InsertItems(rows, orderId, items)[k] == rows[k]
    decreases |items|
  {
    if items != [] {
      InsertKeeps(rows[items[0].id := RowOf(orderId, items[0])], orderId, items[1..], k);
    }
  }

  /** A saved order loads back as it was. */
  lemma InsertThenLoad(db: OrderTables, order: Order)
    requires DistinctIds(order.items)
    requires forall k :: k in db.items ==> db.items[k].orderId != order.id
    ensures Loads(Insert(db, order), order)
  {
    InsertedItemRows(db.items, order.id, order.items);
  }

  /** And no other order loads differently. */
  lemma InsertLeavesOthers(db: OrderTables, order: Order, other: Order)
    requires DistinctIds(order.items) && other.id != order.id
    requires forall i :: 0 <= i < |order.items| ==> order.items[i].id !in db.items
    ensures Loads(db, other) <==> Loads(Insert(db, order), other)
  {
    var after := Insert(db, order);
    InsertedItemRows(db.items, order.id, order.items);
    forall k | k in db.items
      ensures k in after.items && after.items[k] == db.items[k]
    {
      InsertKeeps(db.items, order.id, order.items, k);
    }
    forall k | k in after.items && k !in db.items
      ensures after.items[k].orderId == order.id
    {
      assert HasItem(order.items, k);
    }
  }

  // ---- a whole life of an order ----

  datatype Transition = Confirming(total: Money, details: seq<PricedLine>) | Compensating

  function Transit(order: Order, t: Transition): Outcome<Order> {
    match t
    case Confirming(total, details) => Confirm(order, total, details)
    case Compensating => Compensate(order)
  }

  /** Load, transition, write the changed columns; a throwing transition writes nothing. */
  function Handle(db: OrderTables, loaded: Order, t: Transition): OrderTables {
    match Transit(loaded, t)
    case Done(changed) => Update(db, changed)
    case Threw(_) => db
  }

  /** Two loads of one order differ at most in the order of the items. */
  lemma LoadsAgree(db: OrderTables, a: Order, b: Order)
    requires Loads(db, a) && Loads(db, b) && a.id == b.id
    ensures a == b.(items := a.items)
    ensures forall i :: 0 <= i < |a.items| ==> a.items[i] in b.items
  {
    forall i | 0 <= i < |a.items|
      ensures a.items[i] in b.items
    {
      ItemsAreOwnRows(db, a, a.items[i].id);
      var j :| 0 <= j < |b.items| && b.items[j].id == a.items[i].id;
      assert RowOf(a.id, a.items[i]) == RowOf(b.id, b.items[j]);
    }
  }

  lemma TransitionIsItemwise(order: Order, t: Transition, i: nat)
    requires Transit(order, t).Done? && i < |order.items|
    ensures |Transit(order, t).value.items| == |order.items|
    ensures Transit(order, t).value.items[i] ==
            (if t.Confirming? then PriceItem(t.details)(order.items[i]) else order.items[i])
  {
  }

  lemma TransitKeepsShape(order: Order, t: Transition)
    requires Transit(order, t).Done?
    ensures SameShape(order, Transit(order, t).value)
  {
    match t
    case Confirming(total, details) => TransitionsKeepShape(order, total, details);
    case Compensating => TransitionsKeepShape(order, 0, []);
  }

  lemma TransitionsOfLoadsAgree(a: Order, b: Order, t: Transition)
    requires a == b.(items := a.items) && Transit(b, t).Done?
    requires forall i :: 0 <= i < |a.items| ==> a.items[i] in b.items
    ensures Transit(a, t).Done?
    ensures var x, y := Transit(a, t).value, Transit(b, t).value;
            x == y.(items := x.items) && forall i :: 0 <= i < |x.items| ==> x.items[i] in y.items
  {
    hide MapSeq;
    assert a.status == b.status && a.total == b.total;
    var x, y := Transit(a, t).value, Transit(b, t).value;
    assert |x.items| == |a.items| && |y.items| == |b.items|;
    assert x == y.(items := x.items);
    forall i | 0 <= i < |x.items|
      ensures x.items[i] in y.items
    {
      assert a.items[i] in b.items;
      var j :| 0 <= j < |b.items| && b.items[j] == a.items[i];
      TransitionIsItemwise(a, t, i);
      TransitionIsItemwise(b, t, j);
      assert y.items[j] == x.items[i];
    }
  }

  /** An order made of the same items as one that loads, each once, loads too. */
  lemma ReorderedLoads(db: OrderTables, x: Order, y: Order)
    requires Loads(db, y) && x == y.(items := x.items) && DistinctIds(x.items)
    requires forall i :: 0 <= i < |x.items| ==> x.items[i] in y.items
    requires forall k :: HasItem(y.items, k) ==> HasItem(x.items, k)
    ensures Loads(db, x)
  {
  }

  /** Whichever load the handler happened to get, every order that could have been loaded before
      can, after the transition, be loaded as its own transition. */
  lemma HandleTransformsEveryLoad(db: OrderTables, loaded: Order, a: Order, t: Transition)
    requires Loads(db, loaded) && Loads(db, a) && a.id == loaded.id && NonEmptyIds(loaded.items)
    ensures Loads(Handle(db, loaded, t), Commit(Transit(a, t), a))
  {
    LoadsAgree(db, a, loaded);
    if Transit(loaded, t).Done? {
      TransitKeepsShape(loaded, t);
      UpdateThenLoad(db, loaded, Transit(loaded, t).value);
      TransitionsOfLoadsAgree(a, loaded, t);
      TransitKeepsShape(a, t);
      var x, y := Transit(a, t).value, Transit(loaded, t).value;
      forall k | HasItem(y.items, k)
        ensures HasItem(x.items, k)
      {
        SameItems(loaded, y, k);
        ItemsAreOwnRows(db, loaded, k);
        SameItems(a, x, k);
      }
      ReorderedLoads(Handle(db, loaded, t), x, y);
    }
  }

  /** One handled transition after another, each from whatever load it gets. */
  ghost predicate Life(dbs: seq<OrderTables>, loads: seq<Order>, ts: seq<Transition>, id: string) {
    && |dbs| == |ts| + 1 && |loads| == |ts|
    && forall i :: 0 <= i < |ts| ==>
         && loads[i].id == id && Loads(dbs[i], loads[i]) && NonEmptyIds(loads[i].items)
         && dbs[i + 1] == Handle(dbs[i], loads[i], ts[i])
  }

  function TransitAll(order: Order, ts: seq<Transition>, n: nat): Order
    requires n <= |ts|
  {
    if n == 0 then order
    else
      var before := TransitAll(order, ts, n - 1);
      Commit(Transit(before, ts[n - 1]), before)
  }

  /** Partial-column writes refine whole-order replacement, over any sequence of transitions. */
  lemma {:induction false} LifeRefinesReplacement(dbs: seq<OrderTables>, loads: seq<Order>, ts: seq<Transition>,
                                                  order: Order, n: nat)
    requires Life(dbs, loads, ts, order.id) && Loads(dbs[0], order) && n <= |ts|
    ensures TransitAll(order, ts, n).id == order.id
    ensures Loads(dbs[n], TransitAll(order, ts, n))
  {
    if n > 0 {
      LifeRefinesReplacement(dbs, loads, ts, order, n - 1);
      HandleTransformsEveryLoad(dbs[n - 1], loads[n - 1], TransitAll(order, ts, n - 1), ts[n - 1]);
    }
  }

  // ---- sagas ----

  /** The saga row; its correlation id may be null. */
  datatype SagaRow = SagaRow(orderId: string, correlationId: Option<string>, step: S.Step, status: S.Status,
                             retryCount: nat, lastError: Option<string>, nextRetryAt: Option<int>)

  function SagaToDomain(id: string, row: SagaRow): S.Saga {
    S.Saga(id, row.orderId, if row.correlationId.Some? then row.correlationId.value else "", row.step, row.status,
           row.retryCount, row.lastError, row.nextRetryAt)
  }

  /** The five columns an update writes. */
  function UpdateSagaRow(row: SagaRow, saga: S.Saga): SagaRow {
    row.(step := saga.step, status := saga.status, retryCount := saga.retryCount, lastError := saga.lastError,
         nextRetryAt := saga.nextRetryAt)
  }

  /** Writing the five columns and loading gives back the given saga exactly when the saga has the
      identity of the row, which every transition keeps. */
  lemma SagaUpdateThenLoadIff(id: string, row: SagaRow, saga: S.Saga)
    ensures SagaToDomain(id, UpdateSagaRow(row, saga)) == saga <==>
            var loaded := SagaToDomain(id, row);
            saga.id == loaded.id && saga.orderId == loaded.orderId && saga.correlationId == loaded.correlationId
  {
  }

  lemma SagaTransitionsPersist(id: string, row: SagaRow, reason: string, now: int)
    ensures var loaded := SagaToDomain(id, row);
            && SagaToDomain(id, UpdateSagaRow(row, S.StartCompensation(loaded, reason, now))) == S.StartCompensation(loaded, reason, now)
            && SagaToDomain(id, UpdateSagaRow(row, S.Fail(loaded, reason))) == S.Fail(loaded, reason)
            && SagaToDomain(id, UpdateSagaRow(row, S.ScheduleRetry(loaded, now))) == S.ScheduleRetry(loaded, now)
            && (S.Advance(loaded, now).Done? ==>
                  SagaToDomain(id, UpdateSagaRow(row, S.Advance(loaded, now).value)) == S.Advance(loaded, now).value)
  {
  }

  datatype SagaTransition =
    | Advancing(now: int)
    | StartingCompensation(reason: string, now: int)
    | Failing(reason: string)
    | Retrying(now: int)

  function TransitSaga(saga: S.Saga, t: SagaTransition): Outcome<S.Saga> {
    match t
    case Advancing(now) => S.Advance(saga, now)
    case StartingCompensation(reason, now) => Done(S.StartCompensation(saga, reason, now))
    case Failing(reason) => Done(S.Fail(saga, reason))
    case Retrying(now) => Done(S.ScheduleRetry(saga, now))
  }

  /** Load the row, transition, write the five columns; and so on. */
  function SagaRowAfter(id: string, row: SagaRow, ts: seq<SagaTransition>): SagaRow
    decreases |ts|
  {
    if ts == [] then row
    else match TransitSaga(SagaToDomain(id, row), ts[0])
      case Done(saga) => SagaRowAfter(id, UpdateSagaRow(row, saga), ts[1..])
      case Threw(_) => SagaRowAfter(id, row, ts[1..])
  }

  /** The same transitions on the entity, kept whole. */
  function SagaAfter(saga: S.Saga, ts: seq<SagaTransition>): S.Saga
    decreases |ts|
  {
    if ts == [] then saga else SagaAfter(Commit(TransitSaga(saga, ts[0]), saga), ts[1..])
  }

  /** Over any sequence of transitions, five-column writes load as whole-saga replacement would. */
  lemma {:induction false} SagaLifeRefinesReplacement(id: string, row: SagaRow, ts: seq<SagaTransition>)
    ensures SagaToDomain(id, SagaRowAfter(id, row, ts)) == SagaAfter(SagaToDomain(id, row), ts)
    decreases |ts|
  {
    if ts != [] {
      match TransitSaga(SagaToDomain(id, row), ts[0])
      case Done(saga) =>
        SagaUpdateThenLoadIff(id, row, saga);
        SagaLifeRefinesReplacement(id, UpdateSagaRow(row, saga), ts[1..]);
      case Threw(_) => SagaLifeRefinesReplacement(id, row, ts[1..]);
    }
  }
}
