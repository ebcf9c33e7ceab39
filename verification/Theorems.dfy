/** What the saga guarantees in every state of every run, stated on the services' tables. */
module Theorems {
  import opened Basics
  import opened OrderEntity
  import opened Messages
  import opened Stock
  import opened Orchestrator
  import opened PaymentService
  import opened World
  import opened Local
  import opened Invariant
  import opened OrderSteps
  import opened ParticipantSteps
  import opened Ledger
  import opened Safety
  import S = SagaEntity

  // ---- facts about the tables ----

  predicate OrderIs(w: World, o: string, status: OrderStatus) {
    o in w.order.orders && w.order.orders[o].status == status
  }

  /** The customer has been charged for the order. */
  predicate IsCharged(w: World, o: string) {
    o in w.payment.payments && w.payment.payments[o].status == Settled
  }

  /** The reply product-service has stored for the saga of an order. */
  function StockReply(w: World, o: string, purpose: Purpose): Option<Message> {
    if o in w.order.sagas then Lookup(w.product.keys, CommandKey(w.order.sagas[o].id, purpose)) else None
  }

  function PaymentAnswer(w: World, o: string): Option<Message> {
    if o in w.order.sagas then Lookup(w.payment.keys, CommandKey(w.order.sagas[o].id, ForPayment)) else None
  }

  predicate StockWasReserved(w: World, o: string) {
    StockReply(w, o, ForReserve).Some? && StockReply(w, o, ForReserve).value.StockReserved?
  }

  predicate StockWasRefused(w: World, o: string) {
    StockReply(w, o, ForReserve).Some? && StockReply(w, o, ForReserve).value.StockReservationFailed?
  }

  predicate StockWasReleased(w: World, o: string) {
    StockReply(w, o, ForRelease).Some?
  }

  predicate PaymentWasDeclined(w: World, o: string) {
    PaymentAnswer(w, o).Some? && PaymentAnswer(w, o).value.PaymentFailed?
  }

  lemma TablesAreTheView(w: World, o: string)
    requires o in w.order.orders && o in w.order.sagas
    ensures var v := ViewOf(w, o);
            && v.order == w.order.orders[o] && v.saga == w.order.sagas[o]
            && v.reservation == StockReply(w, o, ForReserve) && v.release == StockReply(w, o, ForRelease)
            && v.payment == PaymentAnswer(w, o) && v.paymentRow == Lookup(w.payment.payments, o)
  {
  }

  /** Any order of any state of a run satisfies its invariant, and so it does later, grown. */
  lemma AnyOrder(ws: seq<World>, i: nat, j: nat, o: string)
    requires Run(ws) && i <= j < |ws| && o in ws[i].order.orders
    ensures o in ws[i].order.sagas && o in ws[j].order.orders && o in ws[j].order.sagas
    ensures Ok(ViewOf(ws[i], o)) && Ok(ViewOf(ws[j], o)) && Grows(ViewOf(ws[i], o), ViewOf(ws[j], o))
  {
    hide Ok, Grows, ViewOf, Legal, Next, Initial;
    RunGrows(ws, i, j);
  }

  lemma RowsHaveOrders(ws: seq<World>, i: nat, o: string)
    requires Run(ws) && i < |ws| && o in ws[i].payment.payments
    ensures o in ws[i].order.orders
  {
    hide Ok, ViewOf, Legal, Next, Initial;
    RunIsSafe(ws, i);
  }

  lemma AnyWritten(ws: seq<World>, i: nat, m: Message)
    requires Run(ws) && i < |ws| && Written(ws[i], m)
    ensures m.orderId in ws[i].order.orders && m.orderId in ws[i].order.sagas
    ensures Legal(ViewOf(ws[i], m.orderId), m)
  {
    hide Ok, ViewOf, Legal, Next, Initial;
    RunIsSafe(ws, i);
    assert LegalHere(ws[i], m);
  }

  // ---- charge and cancel ----

  predicate Paid(v: View) {
    v.paymentRow.Some? && v.paymentRow.value.status == Settled
  }

  lemma PaidStaysUncancelled(v: View, v': View)
    requires Ok(v) && Ok(v') && Grows(v, v')
    ensures !(Paid(v) && v.order.status == Cancelled)
    ensures Paid(v) ==> Paid(v') && v'.order.status != Cancelled
    ensures v.order.status == Cancelled ==> v'.order.status == Cancelled && !Paid(v')
  {
    hide SumBy, MapSeq, ItemLines, PricedLines, ItemsTotal, OnePricePerProduct, PricedTotal;
  }

  /** No order is ever both cancelled and charged, and a charged order is never cancelled
      afterwards: under any duplication, reordering, loss, resend or poller interleaving. */
  lemma ChargeCancelExclusion(ws: seq<World>, i: nat, j: nat, o: string)
    requires Run(ws) && i <= j < |ws|
    ensures !(OrderIs(ws[i], o, Cancelled) && IsCharged(ws[i], o))
    ensures IsCharged(ws[i], o) ==> IsCharged(ws[j], o) && !OrderIs(ws[j], o, Cancelled)
    ensures OrderIs(ws[i], o, Cancelled) ==> OrderIs(ws[j], o, Cancelled) && !IsCharged(ws[j], o)
  {
    hide Next, Initial, Ok, Grows, ViewOf;
    if o in ws[i].payment.payments {
      RowsHaveOrders(ws, i, o);
    }
    if o in ws[i].order.orders {
      AnyOrder(ws, i, j, o);
      TablesAreTheView(ws[i], o);
      TablesAreTheView(ws[j], o);
      PaidStaysUncancelled(ViewOf(ws[i], o), ViewOf(ws[j], o));
    }
  }

  /** Once ORDER_CONFIRMED has been written, at that time and ever after: the saga is completed,
      the order is confirmed, its stock was reserved and is not given back, it is charged once,
      for exactly its total, which is what its items add up to and what the event says; the event
      lists the reservation's lines, names and prices, and goes to the order's user. */
  lemma ConfirmationSoundness(ws: seq<World>, i: nat, j: nat, m: Message)
    requires Run(ws) && i <= j < |ws|
    requires m in ws[i].order.outbox && m.OrderConfirmed?
    ensures var w, o := ws[j], m.orderId;
            && OrderIs(w, o, Confirmed)
            && o in w.order.sagas && w.order.sagas[o].status == S.Succeeded
            && StockWasReserved(w, o) && !StockWasReleased(w, o)
            && IsCharged(w, o)
            && w.payment.payments[o].userId == w.order.orders[o].userId
            && w.payment.payments[o].amount == w.order.orders[o].total
            && w.order.orders[o].total == ItemsTotal(w.order.orders[o].items)
            && w.order.orders[o].total == m.total
            && multiset(m.items) == multiset(MapSeq(w.order.orders[o].items, ItemPriced()))
            && multiset(m.items) == multiset(StockReply(w, o, ForReserve).value.items)
            && m.userId == w.order.orders[o].userId && m.userEmail == w.order.orders[o].userEmail
            && m.correlationId == w.order.sagas[o].correlationId
            && PaymentAnswer(w, o).Some? && PaymentAnswer(w, o).value.PaymentProcessed?
            && w.payment.payments[o].transactionId == Some(PaymentAnswer(w, o).value.transactionId)
  {
    hide Next, Initial, SumBy, MapSeq, ItemLines, PricedLines, ItemsTotal, OnePricePerProduct, PricedTotal;
    AnyWritten(ws, i, m);
    AnyOrder(ws, i, j, m.orderId);
    TablesAreTheView(ws[j], m.orderId);
    LegalStays(ViewOf(ws[i], m.orderId), ViewOf(ws[j], m.orderId), m);
  }

  // ---- compensation ----

  /** A cancelled order either was refused its stock, or had it reserved, its payment declined
      and its stock given back. */
  lemma CompensationIsComplete(ws: seq<World>, i: nat, o: string)
    requires Run(ws) && i < |ws| && OrderIs(ws[i], o, Cancelled)
    ensures || (StockWasRefused(ws[i], o) && PaymentAnswer(ws[i], o) == None && !StockWasReleased(ws[i], o))
            || (StockWasReserved(ws[i], o) && PaymentWasDeclined(ws[i], o) && StockWasReleased(ws[i], o))
  {
    hide Next, Initial, SumBy, MapSeq, ItemLines, PricedLines, ItemsTotal, OnePricePerProduct, PricedTotal;
    AnyOrder(ws, i, i, o);
    TablesAreTheView(ws[i], o);
  }

  /** Stock is given back only for an order whose stock was reserved and whose payment was
      declined, and never to an order that is charged. */
  lemma ReleaseIsNeverSpurious(ws: seq<World>, i: nat, o: string)
    requires Run(ws) && i < |ws| && o in ws[i].order.orders && StockWasReleased(ws[i], o)
    ensures StockWasReserved(ws[i], o) && PaymentWasDeclined(ws[i], o) && !IsCharged(ws[i], o)
  {
    hide Next, Initial, SumBy, MapSeq, ItemLines, PricedLines, ItemsTotal, OnePricePerProduct, PricedTotal;
    AnyOrder(ws, i, i, o);
    TablesAreTheView(ws[i], o);
  }

  lemma ReleaseLinesWereReserved(v: View, m: Message, p: string)
    requires Ok(v) && m.ReleaseStock? && Legal(v, m)
    ensures Reserved(v)
    ensures Demand(m.lines, p) == Demand(PricedLines(v.reservation.value.items), p)
  {
    hide SumBy, Demand, MapSeq, OnePricePerProduct, PricedTotal, ItemsTotal;
    DemandPermutation(m.lines, PricedLines(v.reservation.value.items), p);
  }

  /** The one step that answers a release command puts back, for every product, exactly the
      quantity that was reserved for the order; a redelivered command puts back nothing. */
  lemma ReleaseGivesBackWhatWasReserved(ws: seq<World>, i: nat, m: Message, now: int, txn: string, p: string)
    requires Run(ws) && i < |ws| && m in ws[i].network && m.ReleaseStock? && p in ws[i].product.products
    ensures var w, w' := ws[i], Receive(ws[i], m, now, txn);
            && p in w'.product.products
            && StockWasReserved(w, m.orderId)
            && w'.product.products[p].stock == w.product.products[p].stock +
                 (if StockWasReleased(w, m.orderId) then 0
                  else Demand(PricedLines(StockReply(w, m.orderId, ForReserve).value.items), p))
  {
    hide Next, Initial, Ok, Legal, ViewOf, Demand, PricedLines, ReleaseAll, StockBalanced, MoneyBalanced, Wired, OrdersOk,
      MessagesLegal;
    var w, o := ws[i], m.orderId;
    RunIsSafe(ws, i);
    CommandKeyIsLookedUp(w, m);
    OrderIsOk(w, o);
    DeliveredIsLegal(w, m);
    TablesAreTheView(w, o);
    ReleaseLinesWereReserved(ViewOf(w, o), m, p);
    ReleaseEffect(w.product.products, m.lines);
  }

  // ---- conservation ----

  /** For every product: what is in stock, what orders hold and what refused reservations have
      leaked add up to what the product was created with; the leak is only ever that of orders
      whose reservation was refused, and no order leaks more of a product than it asked for. */
  lemma StockConservation(ws: seq<World>, i: nat, p: string)
    requires Run(ws) && i < |ws| && p in ws[i].product.products
    ensures p in ws[i].supplied
    ensures ws[i].product.products[p].stock + TotalHeld(ws[i], p) + TotalLeaked(ws[i], p) == ws[i].supplied[p]
    ensures forall o :: o in ws[i].order.orders && LeakedBy(ws[i], p)(o) > 0 ==> StockWasRefused(ws[i], o)
    ensures forall o :: o in ws[i].order.orders ==>
              LeakedBy(ws[i], p)(o) <= Demand(ItemLines(ws[i].order.orders[o].items), p)
  {
    hide Next, Initial, Ok, ViewOf, Demand, ItemLines, HeldBy, LeakedBy, Inv;
    RunIsSafe(ws, i);
    forall o | o in ws[i].order.orders
      ensures LeakedBy(ws[i], p)(o) > 0 ==> StockWasRefused(ws[i], o)
      ensures LeakedBy(ws[i], p)(o) <= Demand(ItemLines(ws[i].order.orders[o].items), p)
    {
      AnyOrder(ws, i, i, o);
      TablesAreTheView(ws[i], o);
      ShareOfView(ws[i], o, p);
      LeakIsBounded(ViewOf(ws[i], o), p);
    }
  }

  lemma LeakIsBounded(v: View, p: string)
    requires Ok(v)
    ensures Leaked(v, p) > 0 ==> Refused(v)
    ensures Leaked(v, p) <= Demand(ItemLines(v.order.items), p)
  {
    hide MapSeq, ItemLines, PricedLines, ItemsTotal, OnePricePerProduct, PricedTotal;
    DemandPart(v.leak, ItemLines(v.order.items), p);
  }

  /** The step that refuses a reservation leaks a proper prefix of the command's lines, and nothing
      exactly when the first line is the one refused; with positive quantities that is also
      exactly when the products are left as they were. */
  lemma RefusalLeaksNothingIff(ws: seq<World>, i: nat, m: Message, now: int, txn: string)
    requires Run(ws) && i < |ws| && m in ws[i].network && m.ReserveStock? && m.key !in ws[i].product.keys
    ensures var w, w', o := ws[i], Receive(ws[i], m, now, txn), m.orderId;
            StockWasRefused(w', o) ==>
              && o in w'.leaks
              && |w'.leaks[o]| < |m.lines| && w'.leaks[o] == m.lines[..|w'.leaks[o]|]
              && (w'.leaks[o] == [] <==> Refusal(w.product.products, m.lines[0]).Some?)
              && ((forall k :: 0 <= k < |m.lines| ==> m.lines[k].quantity > 0) ==>
                    (w'.product.products == w.product.products <==> w'.leaks[o] == []))
  {
    hide Next, Initial, Inv, StockBalanced, MoneyBalanced, ViewOf;
    var w := ws[i];
    RunIsSafe(ws, i);
    CommandKeyIsLookedUp(w, m);
    var attempt := Reserve(w.product.products, m.lines);
    if attempt.refusal.Some? {
      ReserveEffect(w.product.products, m.lines);
      if forall k :: 0 <= k < |m.lines| ==> m.lines[k].quantity > 0 {
        RefusalLeavesStockIff(w.product.products, m.lines);
      }
    }
  }

  /** Every wallet: the balance and the settled payments of its user add up to what the user was
      given; and a payment row is settled exactly when the stored answer is yes. */
  lemma WalletLedger(ws: seq<World>, i: nat, u: string, o: string)
    requires Run(ws) && i < |ws|
    ensures Balance(ws[i].payment, u) + TotalCharged(ws[i].payment.payments, u) == Deposited(ws[i], u)
    ensures IsCharged(ws[i], o) <==> PaymentAnswer(ws[i], o).Some? && PaymentAnswer(ws[i], o).value.PaymentProcessed?
  {
    hide Next, Initial, OnePricePerProduct, PricedTotal, SumBy, MapSeq, TotalCharged;
    RunIsSafe(ws, i);
    if o in ws[i].payment.payments {
      RowsHaveOrders(ws, i, o);
    }
    if o in ws[i].order.orders {
      AnyOrder(ws, i, i, o);
      TablesAreTheView(ws[i], o);
    }
  }

  // ---- replies ----

  /** The participants have stored this reply for the order. */
  predicate Stored(v: View, m: Message) {
    v.reservation == Some(m) || v.release == Some(m) || v.payment == Some(m)
  }

  lemma StoredKey(v: View, m: Message)
    requires Ok(v) && Stored(v, m)
    ensures !IsOutcome(m) && m.key.sagaId == v.saga.id
  {
  }

  lemma StoredOnce(v: View, a: Message, b: Message)
    requires Ok(v) && Stored(v, a) && Stored(v, b) && !IsOutcome(a) && !IsOutcome(b) && a.key == b.key
    ensures a == b
  {
  }

  lemma StoredStays(v: View, v': View, m: Message)
    requires Grows(v, v') && Stored(v, m)
    ensures Stored(v', m)
  {
  }

  /** Any two replies ever published for one command id are the same message, so success and
      failure of one command never coexist. */
  lemma RepliesAreDeterministic(ws: seq<World>, i: nat, j: nat, a: Message, b: Message)
    requires Run(ws) && i <= j < |ws|
    requires a in ws[i].network && b in ws[j].network && IsReply(a) && IsReply(b) && a.key == b.key
    ensures a == b
  {
    hide Next, Initial, StockBalanced, MoneyBalanced, Wired, OrdersOk, MessagesLegal, Ok, Grows, ViewOf;
    RunIsSafe(ws, i);
    RunIsSafe(ws, j);
    ReplyIsStored(ws[i], a);
    ReplyIsStored(ws[j], b);
    AnyOrder(ws, i, j, a.orderId);
    AnyOrder(ws, j, j, b.orderId);
    StoredStays(ViewOf(ws[i], a.orderId), ViewOf(ws[j], a.orderId), a);
    StoredKey(ViewOf(ws[j], a.orderId), a);
    StoredKey(ViewOf(ws[j], b.orderId), b);
    TablesAreTheView(ws[j], a.orderId);
    TablesAreTheView(ws[j], b.orderId);
    SameSagaSameOrder(ws[j], a.orderId, b.orderId);
    StoredOnce(ViewOf(ws[j], a.orderId), a, b);
  }

  lemma SameSagaSameOrder(w: World, a: string, b: string)
    requires Inv(w) && a in w.order.orders && b in w.order.orders
    ensures a in w.order.sagas && b in w.order.sagas
    ensures w.order.sagas[a].id == w.order.sagas[b].id ==> a == b
  {
    hide OrdersOk, MessagesLegal, Anchored;
  }

  /** No two entries of a participant's idempotency table have the same text for a key. */
  lemma KeysNeverCollide(ws: seq<World>, i: nat, a: CommandKey, b: CommandKey)
    requires Run(ws) && i < |ws| && KeyText(a) == KeyText(b)
    requires (a in ws[i].product.keys && b in ws[i].product.keys) || (a in ws[i].payment.keys && b in ws[i].payment.keys)
    ensures a == b
  {
    hide Next, Initial, OrdersOk, MessagesLegal, StockBalanced, MoneyBalanced, KeyText;
    RunIsSafe(ws, i);
    assert Owned(ws[i].order, a) && Owned(ws[i].order, b);
    KeyTextInjective(a, b);
  }

  /** The participants look a command up by the text of its key; for a published command that finds
      an entry exactly when the key itself is in the table. */
  lemma TextIsAsGoodAsKey(ws: seq<World>, i: nat, m: Message, stored: CommandKey)
    requires Run(ws) && i < |ws| && m in ws[i].network
    requires m.ReserveStock? || m.ReleaseStock? || m.ProcessPayment?
    requires stored in ws[i].product.keys || stored in ws[i].payment.keys
    ensures KeyText(m.key) == KeyText(stored) <==> m.key == stored
  {
    hide Next, Initial, OrdersOk, MessagesLegal, StockBalanced, MoneyBalanced, KeyText;
    RunIsSafe(ws, i);
    CommandKeyIsLookedUp(ws[i], m);
    assert Owned(ws[i].order, stored);
    KeyTextInjective(m.key, stored);
  }

  // ---- saga and order together ----

  /** The phases of saga and order never disagree, and no order is ever completed. */
  lemma JointInvariant(ws: seq<World>, i: nat, o: string)
    requires Run(ws) && i < |ws| && o in ws[i].order.orders
    ensures o in ws[i].order.sagas
    ensures var saga, status := ws[i].order.sagas[o], ws[i].order.orders[o].status;
            && S.Coherent(saga)
            && (saga.step == S.ReserveStock ==> status == Pending)
            && (saga.step in {S.ProcessPayment, S.ReleaseStock} ==> status == Confirmed)
            && (saga.status == S.Succeeded ==> status == Confirmed && IsCharged(ws[i], o))
            && (status == Cancelled ==> saga.status == S.Aborted)
            && status != Completed
  {
    hide Next, Initial, OnePricePerProduct, PricedTotal, SumBy, MapSeq, ItemLines, PricedLines, ItemsTotal;
    AnyOrder(ws, i, i, o);
    TablesAreTheView(ws[i], o);
  }

  /** Whether handling this message would throw. */
  predicate Throws(w: World, m: Message, now: int, txn: string) {
    match m
    case ProcessPayment(_, _, _, _, _) => HandlePayment(w.payment, m, txn).Threw?
    case StockReserved(_, _, _, _, _) => OnStockReserved(w.order, m, now).Threw?
    case StockReservationFailed(_, _, _, _) => OnStockReservationFailed(w.order, m).Threw?
    case StockReleased(_, _, _) => OnStockReleased(w.order, m).Threw?
    case PaymentProcessed(_, _, _, _) => OnPaymentProcessed(w.order, m, now).Threw?
    case PaymentFailed(_, _, _, _) => OnPaymentFailed(w.order, m, now).Threw?
    case _ => false
  }

  /** No reachable delivery and no poller visit ever throws: no transition error, no missing
      order, no violated unique constraint. */
  lemma NothingThrows(ws: seq<World>, i: nat, m: Message, o: string, now: int, txn: string)
    requires Run(ws) && i < |ws|
    ensures m in ws[i].network ==> !Throws(ws[i], m, now, txn)
    ensures PollOne(ws[i].order, o, now).Done?
  {
    hide Next, Initial, Inv, Keeps, OnStockReserved, OnStockReservationFailed, OnStockReleased, OnPaymentProcessed,
      OnPaymentFailed, HandlePayment, PollOne;
    var w := ws[i];
    RunIsSafe(ws, i);
    PolledKeeps(w, o, now);
    if m in w.network {
      match m
      case ProcessPayment(_, _, _, _, _) => PaymentNeverThrows(w, m, txn);
      case StockReserved(_, _, _, _, _) => StockReservedKeeps(w, m, now);
      case StockReservationFailed(_, _, _, _) => ReservationFailedKeeps(w, m);
      case StockReleased(_, _, _) => StockReleasedKeeps(w, m);
      case PaymentProcessed(_, _, _, _) => PaymentProcessedKeeps(w, m, now);
      case PaymentFailed(_, _, _, _) => PaymentFailedKeeps(w, m, now);
      case _ =>
    }
  }

  // ---- outcomes ----

  /** At most one row among ORDER_CONFIRMED and ORDER_CANCELLED is ever written for an order, one
      exactly when its saga completed or it was cancelled, and at most one of the two e-mails is
      sent, however often the rows are redelivered. */
  lemma OneOutcomePerOrder(ws: seq<World>, i: nat, o: string)
    requires Run(ws) && i < |ws| && o in ws[i].order.orders
    ensures o in ws[i].order.sagas
    ensures SumBy(ws[i].order.outbox, OutcomeFor(o)) ==
            (if ws[i].order.sagas[o].status == S.Succeeded || OrderIs(ws[i], o, Cancelled) then 1 else 0)
    ensures SumBy(ws[i].notify.emails, MailFor(o)) <= 1
    ensures SumBy(ws[i].notify.emails, MailFor(o)) <= SumBy(ws[i].order.outbox, OutcomeFor(o))
  {
    hide Next, Initial, OnePricePerProduct, PricedTotal, SumBy, MapSeq, ItemLines, PricedLines, ItemsTotal;
    AnyOrder(ws, i, i, o);
    TablesAreTheView(ws[i], o);
  }

  /** The reason in ORDER_CANCELLED is the one in the refusal of the stock or of the payment, and
      it is the saga's last error, whatever was retried in between. */
  lemma ReasonProvenance(ws: seq<World>, i: nat, j: nat, m: Message)
    requires Run(ws) && i <= j < |ws| && m in ws[i].order.outbox && m.OrderCancelled?
    ensures OrderIs(ws[j], m.orderId, Cancelled)
    ensures m.orderId in ws[j].order.sagas && ws[j].order.sagas[m.orderId].lastError == Some(m.reason)
    ensures m.userId == ws[j].order.orders[m.orderId].userId && m.userEmail == ws[j].order.orders[m.orderId].userEmail
    ensures m.correlationId == ws[j].order.sagas[m.orderId].correlationId
    ensures || (StockWasRefused(ws[j], m.orderId) && StockReply(ws[j], m.orderId, ForReserve).value.reason == m.reason)
            || (PaymentWasDeclined(ws[j], m.orderId) && PaymentAnswer(ws[j], m.orderId).value.reason == m.reason)
  {
    hide Next, Initial, OnePricePerProduct, PricedTotal, SumBy, MapSeq, ItemLines, PricedLines, ItemsTotal;
    AnyWritten(ws, i, m);
    AnyOrder(ws, i, j, m.orderId);
    TablesAreTheView(ws[j], m.orderId);
    LegalStays(ViewOf(ws[i], m.orderId), ViewOf(ws[j], m.orderId), m);
  }

  /** A failed saga is meant to have cancelled its order. It has, exactly when it did not run out
      of retries; when it did, the budget is spent and the order stays as it was. */
  lemma FailedSagaCancelledIff(ws: seq<World>, i: nat, o: string)
    requires Run(ws) && i < |ws| && o in ws[i].order.orders
    ensures o in ws[i].order.sagas
    ensures ws[i].order.sagas[o].status == S.Aborted ==>
              && (OrderIs(ws[i], o, Cancelled) <==> ws[i].order.sagas[o].lastError != Some(S.RETRIES_EXHAUSTED))
              && (!OrderIs(ws[i], o, Cancelled) ==> ws[i].order.sagas[o].retryCount == S.MAX_RETRIES)
  {
    hide Next, Initial, OnePricePerProduct, PricedTotal, SumBy, MapSeq, ItemLines, PricedLines, ItemsTotal;
    AnyOrder(ws, i, i, o);
    TablesAreTheView(ws[i], o);
    assert S.RETRIES_EXHAUSTED[0] == 'M';
  }

  // ---- abandonment ----

  /** Poller visits at the given times, with nothing else happening. */
  function Visits(db: OrderDb, o: string, nows: seq<int>): OrderDb
    decreases |nows|
  {
    if nows == [] then db else Visits(Commit(PollOne(db, o, nows[0]), db), o, nows[1..])
  }

  lemma StillLinked(db: OrderDb, next: OrderDb, o: string, saga: S.Saga)
    requires Linked(db) && o in db.orders && next.orders == db.orders && next.sagas == db.sagas[o := saga]
    requires saga.id == db.sagas[o].id && saga.orderId == o
    ensures Linked(next)
  {
  }

  lemma OneVisit(db: OrderDb, o: string, now: int)
    requires o in db.orders && o in db.sagas && db.sagas[o].orderId == o && db.sagas[o].status == S.Running
    ensures var next := Commit(PollOne(db, o, now), db);
            && next.orders == db.orders
            && next.sagas == db.sagas[o := if S.HasExceededMaxRetries(db.sagas[o])
                                           then S.Fail(db.sagas[o], S.RETRIES_EXHAUSTED)
                                           else S.ScheduleRetry(db.sagas[o], now)]
  {
    hide MapSeq, ItemLines, Pow2;
  }

  /** A running saga whose replies stay away is given up after its remaining retries and one more
      visit: the saga fails, and the order keeps the status it had. */
  lemma {:induction false} PollerAbandons(db: OrderDb, o: string, nows: seq<int>)
    requires Linked(db) && o in db.orders && db.sagas[o].status == S.Running
    requires db.sagas[o].retryCount <= S.MAX_RETRIES
    requires |nows| == S.MAX_RETRIES - db.sagas[o].retryCount + 1
    ensures var after := Visits(db, o, nows);
            && after.orders == db.orders
            && o in after.sagas
            && after.sagas[o] == S.Fail(db.sagas[o].(retryCount := S.MAX_RETRIES), S.RETRIES_EXHAUSTED)
    decreases |nows|
  {
    hide PollOne;
    OneVisit(db, o, nows[0]);
    if !S.HasExceededMaxRetries(db.sagas[o]) {
      StillLinked(db, Commit(PollOne(db, o, nows[0]), db), o, S.ScheduleRetry(db.sagas[o], nows[0]));
      PollerAbandons(Commit(PollOne(db, o, nows[0]), db), o, nows[1..]);
    } else {
      assert nows[1..] == [];
    }
  }

  /** A given-up order stays pending or confirmed, whichever it was, for ever. */
  lemma AbandonedOrdersStay(ws: seq<World>, i: nat, j: nat, o: string)
    requires Run(ws) && i <= j < |ws| && o in ws[i].order.orders && o in ws[i].order.sagas
    requires ws[i].order.sagas[o].status == S.Aborted && ws[i].order.sagas[o].lastError == Some(S.RETRIES_EXHAUSTED)
    ensures o in ws[j].order.orders && o in ws[j].order.sagas && ws[j].order.sagas[o] == ws[i].order.sagas[o]
    ensures ws[j].order.orders[o].status == ws[i].order.orders[o].status
    ensures ws[j].order.orders[o].status in {Pending, Confirmed}
  {
    hide Next, Initial, Ok, SumBy, MapSeq, ItemLines;
    AnyOrder(ws, i, j, o);
    FailedSagaCancelledIff(ws, i, o);
    JointInvariant(ws, i, o);
  }

  // ---- payment of confirmed orders ----

  lemma PayableAmount(v: View, m: Message)
    requires Ok(v) && m.ProcessPayment? && Legal(v, m) && v.order.status == Confirmed && v.payment.None?
    ensures m.userId == v.order.userId && m.amount == v.order.total && v.paymentRow.None?
  {
    hide SumBy, MapSeq, ItemLines, PricedLines, ItemsTotal, OnePricePerProduct, PricedTotal;
  }

  /** A confirmed order is not necessarily paid. Delivering its unanswered payment command charges
      it exactly when its user has a wallet that holds the order's total. */
  lemma ConfirmedIsPaidIff(ws: seq<World>, i: nat, m: Message, now: int, txn: string)
    requires Run(ws) && i < |ws| && m in ws[i].network && m.ProcessPayment? && m.key !in ws[i].payment.keys
    requires OrderIs(ws[i], m.orderId, Confirmed)
    ensures var w, order := ws[i], ws[i].order.orders[m.orderId];
            IsCharged(Receive(w, m, now, txn), m.orderId) <==>
            order.userId in w.payment.wallets && order.total <= w.payment.wallets[order.userId]
  {
    hide Next, Initial, Wired, OrdersOk, MessagesLegal, StockBalanced, MoneyBalanced, Ok, Legal, ViewOf;
    var w, o := ws[i], m.orderId;
    RunIsSafe(ws, i);
    CommandKeyIsLookedUp(w, m);
    DeliveredIsLegal(w, m);
    OrderIsOk(w, o);
    TablesAreTheView(w, o);
    PayableAmount(ViewOf(w, o), m);
  }
}
