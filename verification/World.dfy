/** The whole system as one state machine. Every database transaction is one atomic step. The
    network is the set of all messages ever published, and any of them may be delivered at any
    time, any number of times or never; the poller may visit any running saga at any time. */
module World {
  import opened Basics
  import opened OrderEntity
  import opened Messages
  import opened Stock
  import opened Orchestrator
  import opened ProductService
  import opened PaymentService
  import opened Notification
  import S = SagaEntity

  /** The four databases and the network, with three history variables that no transaction
      reads: the lines a refused reservation has nevertheless taken, the stock every product
      was created with, and the money every wallet was given. */
  datatype World = World(
    order: OrderDb,
    product: ProductDb,
    payment: PaymentDb,
    notify: NotifyDb,
    network: set<Message>,
    leaks: map<string, seq<Line>>,
    supplied: map<string, nat>,
    deposited: map<string, nat>)

  datatype Event =
    | Ordered(orderId: string, sagaId: string, userId: string, userEmail: string, correlationId: string,
              lines: seq<Line>, itemIds: seq<string>, now: int)
    | Published(message: Message)
    | Delivered(message: Message, now: int, transactionId: string)
    | Polled(orderId: string, now: int)
    | Reloaded(orderId: string, items: seq<OrderItem>)
    | Registered(userId: string, amount: Money)
    | ToppedUp(userId: string, amount: Money)
    | ProductAdded(productId: string, name: string, price: Money, stock: nat)
    | ProductEdited(productId: string, name: string, price: Money)
    | ProductRemoved(productId: string)
    | RolledBack

  predicate Initial(w: World) {
    w == World(OrderDb(map[], map[], []), ProductDb(map[], map[], []), PaymentDb(map[], map[], map[], []),
               NotifyDb({}, []), {}, map[], map[], map[])
  }

  /** Written to some service's outbox, by a committed transaction. */
  predicate Written(w: World, m: Message) {
    m in w.order.outbox || m in w.product.outbox || m in w.payment.outbox
  }

  /** The lines a reservation attempt leaves taken although it is refused. */
  function LeakOf(attempt: Attempt): seq<Line> {
    if attempt.refusal.Some? then PricedLines(attempt.taken) else []
  }

  function Deposited(w: World, userId: string): nat {
    if userId in w.deposited then w.deposited[userId] else 0
  }

  /** A message reaches the service that subscribes to its topic. */
  function Receive(w: World, m: Message, now: int, transactionId: string): World {
    match m
    case ReserveStock(key, orderId, _, lines) =>
      w.(product := HandleReserve(w.product, m),
         leaks := if key in w.product.keys then w.leaks
                  else w.leaks[orderId := LeakOf(Reserve(w.product.products, lines))])
    case ReleaseStock(_, _, _, _) => w.(product := HandleRelease(w.product, m))
    case ProcessPayment(_, _, _, _, _) =>
      w.(payment := Commit(HandlePayment(w.payment, m, transactionId), w.payment))
    case StockReserved(_, _, _, _, _) => w.(order := Commit(OnStockReserved(w.order, m, now), w.order))
    case StockReservationFailed(_, _, _, _) => w.(order := Commit(OnStockReservationFailed(w.order, m), w.order))
    case StockReleased(_, _, _) => w.(order := Commit(OnStockReleased(w.order, m), w.order))
    case PaymentProcessed(_, _, _, _) => w.(order := Commit(OnPaymentProcessed(w.order, m, now), w.order))
    case PaymentFailed(_, _, _, _) => w.(order := Commit(OnPaymentFailed(w.order, m, now), w.order))
    case OrderConfirmed(_, _, _, _, _, _) => w.(notify := Notify(w.notify, EventOf(m)))
    case OrderCancelled(_, _, _, _, _) => w.(notify := Notify(w.notify, EventOf(m)))
  }

  /** When an event can happen. Row ids are fresh uuids; a message is published from an outbox
      and delivered from the network; the rows of an order may come back in any order. */
  predicate Enabled(w: World, e: Event) {
    match e
    case Ordered(orderId, sagaId, _, _, _, lines, itemIds, _) =>
      && orderId !in w.order.orders
      && |sagaId| == UUID_LENGTH
      && (forall o :: o in w.order.sagas ==> w.order.sagas[o].id != sagaId)
      && |itemIds| == |lines|
    case Published(m) => Written(w, m)
    case Delivered(m, _, _) => m in w.network
    case Reloaded(orderId, items) =>
      orderId in w.order.orders && multiset(items) == multiset(w.order.orders[orderId].items)
    case ProductAdded(productId, _, _, _) => productId !in w.product.products
    case ProductEdited(productId, _, _) =>
      productId in w.product.products && w.product.products[productId].isActive
    case ProductRemoved(productId) =>
      productId in w.product.products && w.product.products[productId].isActive
    case _ => true
  }

  function PutProduct(w: World, productId: string, p: Product): World {
    w.(product := w.product.(products := w.product.products[productId := p]))
  }

  function Happen(w: World, e: Event): World
    requires Enabled(w, e)
  {
    match e
    case Ordered(orderId, sagaId, userId, userEmail, correlationId, lines, itemIds, now) =>
      w.(order := CreateOrder(w.order, orderId, sagaId, userId, userEmail, correlationId, lines, itemIds, now))
    case Published(m) => w.(network := w.network + {m})
    case Delivered(m, now, transactionId) => Receive(w, m, now, transactionId)
    case Polled(orderId, now) => w.(order := Commit(PollOne(w.order, orderId, now), w.order))
    case Reloaded(orderId, items) =>
      w.(order := PutOrder(w.order, w.order.orders[orderId].(items := items)))
    case Registered(userId, amount) =>
      w.(payment := FindOrCreate(w.payment, userId, amount),
         deposited := if userId in w.payment.wallets then w.deposited
                      else w.deposited[userId := Deposited(w, userId) + amount])
    case ToppedUp(userId, amount) =>
      w.(payment := TopUp(w.payment, userId, amount),
         deposited := w.deposited[userId := Deposited(w, userId) + amount])
    case ProductAdded(productId, name, price, stock) =>
      PutProduct(w, productId, Product(name, price, stock, true)).(supplied := w.supplied[productId := stock])
    case ProductEdited(productId, name, price) =>
      PutProduct(w, productId, w.product.products[productId].(name := name, price := price))
    case ProductRemoved(productId) =>
      PutProduct(w, productId, w.product.products[productId].(isActive := false))
    case RolledBack => w
  }

  ghost predicate Next(w: World, w': World) {
    exists e :: Enabled(w, e) && w' == Happen(w, e)
  }

  /** A run: any number of steps from the empty system. */
  ghost predicate Run(ws: seq<World>) {
    && |ws| > 0
    && Initial(ws[0])
    && forall i :: 0 <= i < |ws| - 1 ==> Next(ws[i], ws[i + 1])
  }

  // ---- what concerns one order ----

  function RowFor(orderId: string): Message -> int {
    (m: Message) => if m.orderId == orderId then 1 else 0
  }

  function OutcomeFor(orderId: string): Message -> int {
    (m: Message) => if m.orderId == orderId && IsOutcome(m) then 1 else 0
  }

  function MailFor(orderId: string): LogKey -> int {
    (k: LogKey) => if k.orderId == orderId && k.eventType != PdfEvent then 1 else 0
  }

  /** Everything the system holds about one order. */
  datatype View = View(
    order: Order,
    saga: S.Saga,
    reservation: Option<Message>,
    release: Option<Message>,
    payment: Option<Message>,
    paymentRow: Option<Payment>,
    leak: seq<Line>,
    rows: int,
    outcomes: int,
    confirmedMail: bool,
    cancelledMail: bool,
    mails: int)

  function ViewOf(w: World, o: string): View
    requires o in w.order.orders && o in w.order.sagas
  {
    var saga := w.order.sagas[o];
    View(w.order.orders[o], saga,
         Lookup(w.product.keys, CommandKey(saga.id, ForReserve)),
         Lookup(w.product.keys, CommandKey(saga.id, ForRelease)),
         Lookup(w.payment.keys, CommandKey(saga.id, ForPayment)),
         Lookup(w.payment.payments, o),
         if o in w.leaks then w.leaks[o] else [],
         SumBy(w.order.outbox, RowFor(o)),
         SumBy(w.order.outbox, OutcomeFor(o)),
         LogKey(o, ConfirmedEvent) in w.notify.log,
         LogKey(o, CancelledEvent) in w.notify.log,
         SumBy(w.notify.emails, MailFor(o)))
  }
}
