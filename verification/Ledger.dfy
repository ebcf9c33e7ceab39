/** Two conservation laws over the whole system: pieces of stock and money in wallets. */
module Ledger {
  import opened Basics
  import opened OrderEntity
  import opened Messages
  import opened Stock
  import opened ProductService
  import opened PaymentService
  import opened World
  import opened Local
  import opened Invariant
  import opened OrderSteps
  import opened ParticipantSteps
  import S = SagaEntity

  // ---- stock ----

  /** Pieces an order holds: reserved and not given back. */
  function Held(v: View, p: string): nat {
    if Reserved(v) && !Released(v) then Demand(PricedLines(v.reservation.value.items), p) else 0
  }

  /** Pieces that a refused reservation of the order has taken and nobody gives back. */
  function Leaked(v: View, p: string): nat {
    Demand(v.leak, p)
  }

  function HeldBy(w: World, p: string): string -> int {
    (o: string) => if o in w.order.orders && o in w.order.sagas then Held(ViewOf(w, o), p) else 0
  }

  function LeakedBy(w: World, p: string): string -> int {
    (o: string) => if o in w.order.orders && o in w.order.sagas then Leaked(ViewOf(w, o), p) else 0
  }

  ghost function TotalHeld(w: World, p: string): int {
    SumOver(w.order.orders.Keys, HeldBy(w, p))
  }

  ghost function TotalLeaked(w: World, p: string): int {
    SumOver(w.order.orders.Keys, LeakedBy(w, p))
  }

  /** No order holds pieces of a product that does not exist. */
  ghost predicate NoStrays(w: World) {
    forall o, p :: o in w.order.orders && p !in w.product.products ==> HeldBy(w, p)(o) == 0 && LeakedBy(w, p)(o) == 0
  }

  /** Every piece a product was created with is in stock, held by an order, or leaked. */
  ghost predicate StockBalanced(w: World) {
    && w.product.products.Keys == w.supplied.Keys
    && NoStrays(w)
    && forall p :: p in w.product.products ==>
         w.product.products[p].stock + TotalHeld(w, p) + TotalLeaked(w, p) == w.supplied[p]
  }

  /** One order's share of a product. */
  function Share(w: World, o: string, p: string): int {
    HeldBy(w, p)(o) + LeakedBy(w, p)(o)
  }

  /** Only order `o` moved stock, and what left the shelf is what it holds or leaked more. */
  lemma BalancedAfter(w: World, w': World, o: string)
    requires StockBalanced(w) && o in w.order.orders
    requires w'.order.orders.Keys == w.order.orders.Keys && w'.supplied == w.supplied
    requires w'.product.products.Keys == w.product.products.Keys
    requires forall x, p :: x in w.order.orders && x != o ==>
               HeldBy(w', p)(x) == HeldBy(w, p)(x) && LeakedBy(w', p)(x) == LeakedBy(w, p)(x)
    requires forall p :: p in w.product.products ==>
               w'.product.products[p].stock + Share(w', o, p) == w.product.products[p].stock + Share(w, o, p)
    requires forall p :: p !in w.product.products ==> HeldBy(w', p)(o) == 0 && LeakedBy(w', p)(o) == 0
    ensures StockBalanced(w')
  {
    hide ViewOf, Held, Leaked, HeldBy, LeakedBy;
    var os := w.order.orders.Keys;
    forall p | p in w.product.products
      ensures w'.product.products[p].stock + TotalHeld(w', p) + TotalLeaked(w', p) == w'.supplied[p]
    {
      SumOverChange(os, o, HeldBy(w, p), HeldBy(w', p));
      SumOverChange(os, o, LeakedBy(w, p), LeakedBy(w', p));
    }
    forall x, p | x in w'.order.orders && p !in w'.product.products
      ensures HeldBy(w', p)(x) == 0 && LeakedBy(w', p)(x) == 0
    {
      if x != o {
        assert HeldBy(w', p)(x) == HeldBy(w, p)(x) && LeakedBy(w', p)(x) == LeakedBy(w, p)(x);
      }
    }
  }

  /** What an order holds and leaked depends on these tables only. */
  lemma ShareDependsOn(w: World, w': World, x: string, p: string)
    requires x in w.order.orders && x in w.order.sagas && x in w'.order.orders && x in w'.order.sagas
    requires w'.order.sagas[x].id == w.order.sagas[x].id
    requires w'.product.keys == w.product.keys && w'.leaks == w.leaks
    ensures HeldBy(w', p)(x) == HeldBy(w, p)(x) && LeakedBy(w', p)(x) == LeakedBy(w, p)(x)
  {
    hide SumBy, Demand, PricedLines;
  }

  lemma SagaIdStays(w: World, w': World, x: string)
    requires Wired(w) && Wired(w') && Grown(w, w') && x in w.order.orders
    ensures x in w'.order.orders && x in w'.order.sagas && x in w.order.sagas
    ensures w'.order.sagas[x].id == w.order.sagas[x].id
  {
    assert Grows(ViewOf(w, x), ViewOf(w', x));
  }

  /** No order holds or leaked a different amount of anything. */
  ghost predicate SameShares(w: World, w': World) {
    forall x, p :: x in w.order.orders ==>
      HeldBy(w', p)(x) == HeldBy(w, p)(x) && LeakedBy(w', p)(x) == LeakedBy(w, p)(x)
  }

  lemma SharesUntouched(w: World, w': World)
    requires Wired(w) && Wired(w') && Grown(w, w')
    requires w'.product.keys == w.product.keys && w'.leaks == w.leaks
    ensures SameShares(w, w')
  {
    hide Wired, Grown, HeldBy, LeakedBy;
    forall x, p | x in w.order.orders
      ensures HeldBy(w', p)(x) == HeldBy(w, p)(x) && LeakedBy(w', p)(x) == LeakedBy(w, p)(x)
    {
      SagaIdStays(w, w', x);
      ShareDependsOn(w, w', x, p);
    }
  }

  lemma TotalsSame(w: World, w': World, p: string)
    requires SameShares(w, w') && w'.order.orders.Keys == w.order.orders.Keys
    ensures TotalHeld(w', p) == TotalHeld(w, p) && TotalLeaked(w', p) == TotalLeaked(w, p)
  {
    hide ViewOf, Held, Leaked, HeldBy, LeakedBy;
    SumOverSame(w.order.orders.Keys, HeldBy(w, p), HeldBy(w', p));
    SumOverSame(w.order.orders.Keys, LeakedBy(w, p), LeakedBy(w', p));
  }

  lemma BalancedWithSameShares(w: World, w': World)
    requires StockBalanced(w) && SameShares(w, w')
    requires w'.order.orders.Keys == w.order.orders.Keys && w'.supplied == w.supplied
    requires w'.product.products.Keys == w.product.products.Keys
    requires forall p :: p in w.product.products ==> w'.product.products[p].stock == w.product.products[p].stock
    ensures StockBalanced(w')
  {
    hide ViewOf, Held, Leaked, HeldBy, LeakedBy, SumOver;
    forall p | p in w.product.products
      ensures w'.product.products[p].stock + TotalHeld(w', p) + TotalLeaked(w', p) == w'.supplied[p]
    {
      TotalsSame(w, w', p);
    }
  }

  /** Steps that move no stock keep the balance, whatever else they do to existing orders. */
  lemma BalancedWhenUntouched(w: World, w': World)
    requires Inv(w) && Keeps(w, w') && StockBalanced(w)
    requires w'.order.orders.Keys == w.order.orders.Keys && w'.supplied == w.supplied
    requires w'.product.keys == w.product.keys && w'.leaks == w.leaks
    requires w'.product.products.Keys == w.product.products.Keys
    requires forall p :: p in w.product.products ==> w'.product.products[p].stock == w.product.products[p].stock
    ensures StockBalanced(w')
  {
    hide Wired, OrdersOk, MessagesLegal, Grown, StockBalanced, SameShares;
    SharesUntouched(w, w');
    BalancedWithSameShares(w, w');
  }

  lemma ShareOfView(w: World, o: string, p: string)
    requires o in w.order.orders && o in w.order.sagas
    ensures HeldBy(w, p)(o) == Held(ViewOf(w, o), p) && LeakedBy(w, p)(o) == Leaked(ViewOf(w, o), p)
  {
  }

  lemma SharesOfViews(w: World, w': World, x: string, p: string)
    requires x in w.order.orders && x in w.order.sagas && x in w'.order.orders && x in w'.order.sagas
    requires ViewOf(w', x) == ViewOf(w, x)
    ensures HeldBy(w', p)(x) == HeldBy(w, p)(x) && LeakedBy(w', p)(x) == LeakedBy(w, p)(x)
  {
  }

  // ---- the steps that move stock ----

  /** Taking lines from the shelf and putting them on an order's account balance. */
  lemma ReserveMovesStock(v: View, command: Message, products: Catalogue, p: string)
    requires Ok(v) && v.reservation.None? && command.ReserveStock?
    ensures var attempt := Reserve(products, command.lines);
            var v' := v.(reservation := Some(ReserveReply(command, attempt)), leak := LeakOf(attempt));
            && attempt.products.Keys == products.Keys
            && (p in products ==> attempt.products[p].stock + Held(v', p) + Leaked(v', p)
                                  == products[p].stock + Held(v, p) + Leaked(v, p))
            && (p !in products ==> Held(v', p) == 0 && Leaked(v', p) == 0)
  {
    var attempt := Reserve(products, command.lines);
    NoLeakBeforeReservation(v);
    ReserveEffect(products, command.lines);
    assert Released(v) ==> Reserved(v);
    if p !in products {
      forall j | 0 <= j < |attempt.taken|
        ensures PricedLines(attempt.taken)[j].productId != p
      {
      }
      DemandOfAbsent(PricedLines(attempt.taken), p);
    }
  }

  lemma NewReserveBalanced(w: World, m: Message)
    requires Inv(w) && StockBalanced(w) && m in w.network && m.ReserveStock? && m.key !in w.product.keys
    ensures var attempt := Reserve(w.product.products, m.lines);
            StockBalanced(StockAnswered(w, m.orderId, m.key, ReserveReply(m, attempt), attempt.products,
                                        Some(LeakOf(attempt))))
  {
    hide ViewOf, Held, Leaked, HeldBy, LeakedBy, Reserve, StockBalanced, Wired, OrdersOk, MessagesLegal;
    EveryOrderHasASaga(w);
    var o, attempt := m.orderId, Reserve(w.product.products, m.lines);
    var reply, leak := ReserveReply(m, attempt), LeakOf(attempt);
    var w' := StockAnswered(w, o, m.key, reply, attempt.products, Some(leak));
    CommandKeyIsLookedUp(w, m);
    OrderIsOk(w, o);
    ReservationLookedUp(w, o, reply, attempt.products, leak);
    forall p
      ensures attempt.products.Keys == w.product.products.Keys
      ensures p in w.product.products ==>
                attempt.products[p].stock + Share(w', o, p) == w.product.products[p].stock + Share(w, o, p)
      ensures p !in w.product.products ==> HeldBy(w', p)(o) == 0 && LeakedBy(w', p)(o) == 0
    {
      ReserveMovesStock(ViewOf(w, o), m, w.product.products, p);
      ShareOfView(w, o, p);
      ShareOfView(w', o, p);
    }
    forall x, p | x in w.order.orders && x != o
      ensures HeldBy(w', p)(x) == HeldBy(w, p)(x) && LeakedBy(w', p)(x) == LeakedBy(w, p)(x)
    {
      StockAnsweredOtherViews(w, o, m.key, reply, attempt.products, Some(leak), x);
      SharesOfViews(w, w', x, p);
    }
    BalancedAfter(w, w', o);
  }

  /** A legal release puts back exactly what the order holds. */
  lemma ReleaseMovesStock(v: View, command: Message, reply: Message, products: Catalogue, p: string)
    requires Ok(v) && v.release.None? && command.ReleaseStock? && Legal(v, command)
    ensures var v' := v.(release := Some(reply));
            var after := ReleaseAll(products, command.lines);
            && Held(v, p) == Demand(command.lines, p)
            && Held(v', p) == 0 && Leaked(v', p) == Leaked(v, p)
            && after.Keys == products.Keys
            && (p in products ==> after[p].stock == products[p].stock + Held(v, p))
  {
    ReleaseEffect(products, command.lines);
    DemandPermutation(command.lines, PricedLines(v.reservation.value.items), p);
  }

  lemma NewReleaseBalanced(w: World, m: Message)
    requires Inv(w) && StockBalanced(w) && m in w.network && m.ReleaseStock? && m.key !in w.product.keys
    ensures StockBalanced(StockAnswered(w, m.orderId, m.key, StockReleased(m.key, m.orderId, m.correlationId),
                                        ReleaseAll(w.product.products, m.lines), None))
  {
    hide ViewOf, Held, Leaked, HeldBy, LeakedBy, ReleaseAll, TotalHeld, TotalLeaked, Wired, OrdersOk, MessagesLegal, Legal, Ok;
    EveryOrderHasASaga(w);
    var o, products := m.orderId, ReleaseAll(w.product.products, m.lines);
    var reply := StockReleased(m.key, o, m.correlationId);
    var w' := StockAnswered(w, o, m.key, reply, products, None);
    CommandKeyIsLookedUp(w, m);
    OrderIsOk(w, o);
    DeliveredIsLegal(w, m);
    ReleaseLookedUp(w, o, reply, products);
    forall p
      ensures products.Keys == w.product.products.Keys
      ensures p in w.product.products ==>
                products[p].stock + Share(w', o, p) == w.product.products[p].stock + Share(w, o, p)
      ensures p !in w.product.products ==> HeldBy(w', p)(o) == 0 && LeakedBy(w', p)(o) == 0
    {
      ReleaseMovesStock(ViewOf(w, o), m, reply, w.product.products, p);
      ShareOfView(w, o, p);
      ShareOfView(w', o, p);
    }
    forall x, p | x in w.order.orders && x != o
      ensures HeldBy(w', p)(x) == HeldBy(w, p)(x) && LeakedBy(w', p)(x) == LeakedBy(w, p)(x)
    {
      StockAnsweredOtherViews(w, o, m.key, reply, products, None, x);
      SharesOfViews(w, w', x, p);
    }
    BalancedAfter(w, w', o);
  }

  lemma CreatedShares(w: World, order: Order, saga: S.Saga, sent: Message)
    requires Inv(w) && Fresh(w, order, saga) && sent.orderId == order.id && !IsOutcome(sent)
    ensures SameShares(w, Created(w, order, saga, sent))
    ensures forall p :: HeldBy(Created(w, order, saga, sent), p)(order.id) == 0
                     && LeakedBy(Created(w, order, saga, sent), p)(order.id) == 0
  {
    hide Ok, Legal, ViewOf, HeldBy, LeakedBy;
    var o, w' := order.id, Created(w, order, saga, sent);
    CreatedView(w, order, saga, sent);
    forall p ensures HeldBy(w', p)(o) == 0 && LeakedBy(w', p)(o) == 0 {
      ShareOfView(w', o, p);
    }
    forall x, p | x in w.order.orders
      ensures HeldBy(w', p)(x) == HeldBy(w, p)(x) && LeakedBy(w', p)(x) == LeakedBy(w, p)(x)
    {
      CreatedOtherViews(w, order, saga, sent, x);
      SharesOfViews(w, w', x, p);
    }
  }

  lemma TotalsWithOneMore(w: World, w': World, o: string, p: string)
    requires SameShares(w, w') && o !in w.order.orders && w'.order.orders.Keys == w.order.orders.Keys + {o}
    requires HeldBy(w', p)(o) == 0 && LeakedBy(w', p)(o) == 0
    ensures TotalHeld(w', p) == TotalHeld(w, p) && TotalLeaked(w', p) == TotalLeaked(w, p)
  {
    hide ViewOf, HeldBy, LeakedBy;
    SumOverInsert(w.order.orders.Keys, o, HeldBy(w, p), HeldBy(w', p));
    SumOverInsert(w.order.orders.Keys, o, LeakedBy(w, p), LeakedBy(w', p));
  }

  lemma BalancedWithOneMore(w: World, w': World, o: string)
    requires StockBalanced(w) && SameShares(w, w') && w'.product == w.product && w'.supplied == w.supplied
    requires o !in w.order.orders && w'.order.orders.Keys == w.order.orders.Keys + {o}
    requires forall p :: HeldBy(w', p)(o) == 0 && LeakedBy(w', p)(o) == 0
    ensures StockBalanced(w')
  {
    hide ViewOf, HeldBy, LeakedBy, TotalHeld, TotalLeaked;
    forall p
      ensures TotalHeld(w', p) == TotalHeld(w, p) && TotalLeaked(w', p) == TotalLeaked(w, p)
    {
      TotalsWithOneMore(w, w', o, p);
    }
  }

  lemma CreatedBalanced(w: World, order: Order, saga: S.Saga, sent: Message)
    requires Inv(w) && StockBalanced(w) && Fresh(w, order, saga) && sent.orderId == order.id && !IsOutcome(sent)
    ensures StockBalanced(Created(w, order, saga, sent))
  {
    hide StockBalanced, SameShares, HeldBy, LeakedBy, OrdersOk, MessagesLegal;
    CreatedShares(w, order, saga, sent);
    assert Created(w, order, saga, sent).order.orders.Keys == w.order.orders.Keys + {order.id};
    BalancedWithOneMore(w, Created(w, order, saga, sent), order.id);
  }

  lemma BalancedWithNewProduct(w: World, w': World, q: string, product: Product)
    requires StockBalanced(w) && SameShares(w, w') && q !in w.product.products
    requires w' == PutProduct(w, q, product).(supplied := w.supplied[q := product.stock])
    ensures StockBalanced(w')
  {
    hide ViewOf, HeldBy, LeakedBy, SumOver;
    forall p
      ensures TotalHeld(w', p) == TotalHeld(w, p) && TotalLeaked(w', p) == TotalLeaked(w, p)
    {
      TotalsSame(w, w', p);
    }
    SumOverZero(w.order.orders.Keys, HeldBy(w, q));
    SumOverZero(w.order.orders.Keys, LeakedBy(w, q));
  }

  lemma AddedBalanced(w: World, w': World, q: string, product: Product)
    requires Inv(w) && Keeps(w, w') && StockBalanced(w) && q !in w.product.products
    requires w' == PutProduct(w, q, product).(supplied := w.supplied[q := product.stock])
    ensures StockBalanced(w')
  {
    hide Wired, OrdersOk, MessagesLegal, Grown, StockBalanced, SameShares;
    SharesUntouched(w, w');
    BalancedWithNewProduct(w, w', q, product);
  }

  // ---- money ----

  function ChargedTo(payments: map<string, Payment>, u: string): string -> int {
    (o: string) => if o in payments && payments[o].status == Settled && payments[o].userId == u
                   then payments[o].amount else 0
  }

  /** What a user's settled payments add up to. */
  ghost function TotalCharged(payments: map<string, Payment>, u: string): int {
    SumOver(payments.Keys, ChargedTo(payments, u))
  }

  /** Every cent a user was given is in the wallet or was charged for a settled payment. */
  ghost predicate MoneyBalanced(w: World) {
    forall u :: Balance(w.payment, u) + TotalCharged(w.payment.payments, u) == Deposited(w, u)
  }

  lemma ChargeBalanced(db: PaymentDb, o: string, userId: string, amount: Money, txn: string, u: string)
    requires o !in db.payments
    ensures var charged := Charge(db, o, userId, amount, txn).0;
            Balance(charged, u) + TotalCharged(charged.payments, u) == Balance(db, u) + TotalCharged(db.payments, u)
  {
    var charged := Charge(db, o, userId, amount, txn).0;
    assert charged.payments.Keys == db.payments.Keys + {o};
    SumOverInsert(db.payments.Keys, o, ChargedTo(db.payments, u), ChargedTo(charged.payments, u));
  }

  lemma PaymentStepBalanced(w: World, m: Message, now: int, txn: string)
    requires Inv(w) && MoneyBalanced(w) && m in w.network && m.ProcessPayment?
    ensures MoneyBalanced(Receive(w, m, now, txn))
  {
    hide Inv, TotalCharged;
    PaymentNeverThrows(w, m, txn);
    var w' := Receive(w, m, now, txn);
    if m.key !in w.payment.keys {
      forall u ensures Balance(w'.payment, u) + TotalCharged(w'.payment.payments, u) == Deposited(w', u) {
        ChargeBalanced(w.payment, m.orderId, m.userId, m.amount, txn, u);
      }
    }
  }
}
