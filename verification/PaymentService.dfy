/** payment-service: wallets, payment rows and the idempotent payment handler. */
module PaymentService {
  import opened Basics
  import opened OrderEntity
  import opened Messages

  datatype PaymentStatus = Unsettled | Settled

  /** A payment row; `orderId` is a unique column, so the table is keyed by it. */
  datatype Payment = Payment(userId: string, amount: Money, status: PaymentStatus, transactionId: Option<string>)

  datatype PaymentDb = PaymentDb(
    wallets: map<string, Money>,
    payments: map<string, Payment>,
    keys: map<CommandKey, Message>,
    outbox: seq<Message>)

  /** A user without a wallet row has nothing to spend. */
  function Balance(db: PaymentDb, userId: string): Money {
    if userId in db.wallets then db.wallets[userId] else 0
  }

  // ---- wallets ----

  function FindOrCreate(db: PaymentDb, userId: string, initialBalance: Money): PaymentDb {
    if userId in db.wallets then db else db.(wallets := db.wallets[userId := initialBalance])
  }

  function TopUp(db: PaymentDb, userId: string, amount: Money): PaymentDb {
    db.(wallets := db.wallets[userId := Balance(db, userId) + amount])
  }

  function FundsError(available: Money, required: Money): string {
    "Insufficient funds: available " + Show(available) + ", required " + Show(required)
  }

  // ---- the payment handler ----

  /** The database after the payment row is inserted and the wallet debited, or the domain
      error that left the row unsettled. */
  function Charge(db: PaymentDb, orderId: string, userId: string, amount: Money, transactionId: string):
    (PaymentDb, Option<string>)
  {
    if userId !in db.wallets || db.wallets[userId] < amount then
      (db.(payments := db.payments[orderId := Payment(userId, amount, Unsettled, None)]),
       Some(FundsError(Balance(db, userId), amount)))
    else
      (db.(payments := db.payments[orderId := Payment(userId, amount, Settled, Some(transactionId))],
           wallets := db.wallets[userId := db.wallets[userId] - amount]),
       None)
  }

  function PaymentReply(command: Message, refusal: Option<string>, transactionId: string): Message
    requires command.ProcessPayment?
  {
    match refusal
    case None => PaymentProcessed(command.key, command.orderId, command.correlationId, transactionId)
    case Some(reason) => PaymentFailed(command.key, command.orderId, command.correlationId, reason)
  }

  /** A known command id re-queues the stored reply. A new one inserts the payment row, which
      throws when the order already has one, and otherwise charges and records the reply; a
      refused charge commits too, with the row left unsettled. */
  function HandlePayment(db: PaymentDb, command: Message, transactionId: string): Outcome<PaymentDb>
    requires command.ProcessPayment?
  {
    if command.key in db.keys then Done(db.(outbox := db.outbox + [db.keys[command.key]]))
    else if command.orderId in db.payments then Threw("duplicate payment for order")
    else
      var (charged, refusal) := Charge(db, command.orderId, command.userId, command.amount, transactionId);
      var reply := PaymentReply(command, refusal, transactionId);
      Done(charged.(keys := db.keys[command.key := reply], outbox := db.outbox + [reply]))
  }

  class Service {
    var wallets: map<string, Money>
    var payments: map<string, Payment>
    var keys: map<CommandKey, Message>
    var outbox: seq<Message>

    function Db(): PaymentDb
      reads this
    {
      PaymentDb(wallets, payments, keys, outbox)
    }

    constructor ()
      ensures Db() == PaymentDb(map[], map[], map[], [])
    {
      wallets, payments, keys, outbox := map[], map[], map[], [];
    }

    /** The user-registered event: opens a wallet once. */
    method OpenWallet(userId: string, initialBalance: Money)
      modifies this`wallets
      ensures Db() == FindOrCreate(old(Db()), userId, initialBalance)
    {
      if userId !in wallets {
        wallets := wallets[userId := initialBalance];
      }
    }

    method TopUpWallet(userId: string, amount: Money)
      modifies this`wallets
      ensures Db() == TopUp(old(Db()), userId, amount)
    {
      if userId !in wallets {
        wallets := wallets[userId := amount];
      } else {
        wallets := wallets[userId := wallets[userId] + amount];
      }
    }

    /** Debits a wallet that holds enough; otherwise reports how much it holds. */
    method Deduct(userId: string, amount: Money) returns (refusal: Option<string>)
      modifies this`wallets
      ensures refusal.None? <==> userId in old(wallets) && amount <= old(wallets)[userId]
      ensures refusal.None? ==> wallets == old(wallets)[userId := old(wallets)[userId] - amount]
      ensures refusal.Some? ==> wallets == old(wallets) && refusal.value == FundsError(Balance(old(Db()), userId), amount)
    {
      if userId !in wallets {
        return Some(FundsError(0, amount));
      }
      var available := wallets[userId];
      if available < amount {
        return Some(FundsError(available, amount));
      }
      wallets := wallets[userId := available - amount];
      refusal := None;
    }

    /** Insert the row, which the unique column refuses for an order that has one; debit the
        wallet; settle the row. */
    method ProcessPayment(orderId: string, userId: string, amount: Money, transactionId: string)
      returns (duplicate: bool, refusal: Option<string>)
      modifies this`wallets, this`payments
      ensures duplicate <==> orderId in old(payments)
      ensures duplicate ==> Db() == old(Db()) && refusal.None?
      ensures !duplicate ==> (Db(), refusal) == Charge(old(Db()), orderId, userId, amount, transactionId)
    {
      duplicate := orderId in payments;
      if duplicate {
        return true, None;
      }
      payments := payments[orderId := Payment(userId, amount, Unsettled, None)];
      refusal := Deduct(userId, amount);
      if refusal.None? {
        payments := payments[orderId := payments[orderId].(status := Settled, transactionId := Some(transactionId))];
        assert payments == old(payments)[orderId := Payment(userId, amount, Settled, Some(transactionId))];
      }
    }

    method HandleProcessPayment(command: Message, transactionId: string) returns (error: Option<string>)
      requires command.ProcessPayment?
      modifies this
      ensures Db() == Commit(HandlePayment(old(Db()), command, transactionId), old(Db()))
      ensures error.Some? <==> HandlePayment(old(Db()), command, transactionId).Threw?
    {
      error := None;
      if command.key in keys {
        outbox := outbox + [keys[command.key]];
        return;
      }
      var duplicate, refusal := ProcessPayment(command.orderId, command.userId, command.amount, transactionId);
      if duplicate {
        return Some("duplicate payment for order");
      }
      var reply: Message;
      match refusal {
        case None => reply := PaymentProcessed(command.key, command.orderId, command.correlationId, transactionId);
        case Some(reason) => reply := PaymentFailed(command.key, command.orderId, command.correlationId, reason);
      }
      keys := keys[command.key := reply];
      outbox := outbox + [reply];
    }
  }

  // ---- at most one effect per command ----

  /** One attempt of a consumer at a payment command: the transaction commits or is rolled
      back, with its own transaction id. */
  datatype Try = Try(commits: bool, transactionId: string)

  function TryOnce(db: PaymentDb, command: Message, attempt: Try): PaymentDb
    requires command.ProcessPayment?
  {
    if attempt.commits then Commit(HandlePayment(db, command, attempt.transactionId), db) else db
  }

  function Deliver(db: PaymentDb, command: Message, attempts: seq<Try>): PaymentDb
    requires command.ProcessPayment?
    decreases |attempts|
  {
    if attempts == [] then db else Deliver(TryOnce(db, command, attempts[0]), command, attempts[1..])
  }

  predicate SameEffects(a: PaymentDb, b: PaymentDb) {
    a.wallets == b.wallets && a.payments == b.payments && a.keys == b.keys
  }

  lemma {:induction false} KnownCommandHasNoEffect(db: PaymentDb, command: Message, attempts: seq<Try>)
    requires command.ProcessPayment? && (command.key in db.keys || command.orderId in db.payments)
    ensures SameEffects(Deliver(db, command, attempts), db)
    decreases |attempts|
  {
    if attempts != [] {
      KnownCommandHasNoEffect(TryOnce(db, command, attempts[0]), command, attempts[1..]);
    }
  }

  function FirstCommit(attempts: seq<Try>): Option<string> {
    if attempts == [] then None
    else if attempts[0].commits then Some(attempts[0].transactionId)
    else FirstCommit(attempts[1..])
  }

  /** However often a payment command is attempted, and whichever attempts commit or are rolled
      back, wallets, payment rows and stored replies are those of the first committed attempt
      alone. */
  lemma {:induction false} ChargedAtMostOnce(db: PaymentDb, command: Message, attempts: seq<Try>)
    requires command.ProcessPayment?
    ensures match FirstCommit(attempts)
            case None => Deliver(db, command, attempts) == db
            case Some(txn) =>
              SameEffects(Deliver(db, command, attempts), Commit(HandlePayment(db, command, txn), db))
    decreases |attempts|
  {
    if attempts != [] {
      if attempts[0].commits {
        KnownCommandHasNoEffect(TryOnce(db, command, attempts[0]), command, attempts[1..]);
      } else {
        ChargedAtMostOnce(db, command, attempts[1..]);
      }
    }
  }

  // ---- whole delivery sequences ----

  /** One delivery of a payment command. */
  datatype Arrival = Arrival(command: Message, attempt: Try)

  predicate AllPayments(ds: seq<Arrival>) {
    forall i :: 0 <= i < |ds| ==> ds[i].command.ProcessPayment?
  }

  function DeliverAll(db: PaymentDb, ds: seq<Arrival>): PaymentDb
    requires AllPayments(ds)
    decreases |ds|
  {
    if ds == [] then db else DeliverAll(TryOnce(db, ds[0].command, ds[0].attempt), ds[1..])
  }

  /** The first committed delivery of each command; a command is known by its id and its order. */
  function FirstCommits(ds: seq<Arrival>, seen: set<(CommandKey, string)>): (first: seq<Arrival>)
    requires AllPayments(ds)
    ensures AllPayments(first)
    decreases |ds|
  {
    if ds == [] then []
    else
      var c := ds[0].command;
      if !ds[0].attempt.commits || (c.key, c.orderId) in seen then FirstCommits(ds[1..], seen)
      else [ds[0]] + FirstCommits(ds[1..], seen + {(c.key, c.orderId)})
  }

  /** Every command of the set would have no effect any more. */
  predicate AllKnown(db: PaymentDb, seen: set<(CommandKey, string)>) {
    forall s :: s in seen ==> s.0 in db.keys || s.1 in db.payments
  }

  lemma ArrivalMakesKnown(db: PaymentDb, d: Arrival, seen: set<(CommandKey, string)>)
    requires d.command.ProcessPayment? && d.attempt.commits && AllKnown(db, seen)
    ensures AllKnown(TryOnce(db, d.command, d.attempt), seen + {(d.command.key, d.command.orderId)})
  {
  }

  lemma SameTry(db: PaymentDb, other: PaymentDb, d: Arrival)
    requires d.command.ProcessPayment? && SameEffects(db, other)
    ensures SameEffects(TryOnce(db, d.command, d.attempt), TryOnce(other, d.command, d.attempt))
  {
  }

  /** Payment commands of any number of orders, delivered in any order, redelivered, resent or
      rolled back: wallets, payment rows and stored replies are those of the first committed
      delivery of each command alone. */
  lemma {:induction false} RedeliveriesChargeNothing(db: PaymentDb, other: PaymentDb, ds: seq<Arrival>,
                                                     seen: set<(CommandKey, string)>)
    requires AllPayments(ds) && SameEffects(db, other) && AllKnown(db, seen)
    ensures SameEffects(DeliverAll(db, ds), DeliverAll(other, FirstCommits(ds, seen)))
    decreases |ds|
  {
    if ds != [] {
      var d, rest := ds[0], ds[1..];
      var c, next := d.command, TryOnce(db, d.command, d.attempt);
      if !d.attempt.commits || (c.key, c.orderId) in seen {
        RedeliveriesChargeNothing(next, other, rest, seen);
      } else {
        var seen' := seen + {(c.key, c.orderId)};
        assert FirstCommits(ds, seen)[1..] == FirstCommits(rest, seen');
        ArrivalMakesKnown(db, d, seen);
        SameTry(db, other, d);
        RedeliveriesChargeNothing(next, TryOnce(other, c, d.attempt), rest, seen');
      }
    }
  }
}
