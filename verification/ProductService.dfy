/** product-service as a saga participant: the reserve and release handlers, each one database
    transaction over the product table, the idempotency table and the outbox. */
module ProductService {
  import opened Basics
  import opened OrderEntity
  import opened Messages
  import opened Stock

  datatype ProductDb = ProductDb(products: Catalogue, keys: map<CommandKey, Message>, outbox: seq<Message>)

  /** Record the reply under the command id and queue it, in the same transaction. */
  function Answer(db: ProductDb, products: Catalogue, key: CommandKey, reply: Message): ProductDb {
    ProductDb(products, db.keys[key := reply], db.outbox + [reply])
  }

  function ReserveReply(command: Message, attempt: Attempt): Message
    requires command.ReserveStock?
  {
    match attempt.refusal
    case None => StockReserved(command.key, command.orderId, command.correlationId, attempt.taken,
                               PricedTotal(attempt.taken))
    case Some(reason) => StockReservationFailed(command.key, command.orderId, command.correlationId, reason)
  }

  /** A known command id re-queues the stored reply; a new one reserves, and a domain error is
      caught inside the transaction, so whatever the loop wrote is committed with the refusal. */
  function HandleReserve(db: ProductDb, command: Message): ProductDb
    requires command.ReserveStock?
  {
    if command.key in db.keys then db.(outbox := db.outbox + [db.keys[command.key]])
    else
      var attempt := Reserve(db.products, command.lines);
      Answer(db, attempt.products, command.key, ReserveReply(command, attempt))
  }

  function HandleRelease(db: ProductDb, command: Message): ProductDb
    requires command.ReleaseStock?
  {
    if command.key in db.keys then db.(outbox := db.outbox + [db.keys[command.key]])
    else
      Answer(db, ReleaseAll(db.products, command.lines), command.key,
             StockReleased(command.key, command.orderId, command.correlationId))
  }

  /** The service itself, with its three tables. */
  class Service {
    var products: Catalogue
    var keys: map<CommandKey, Message>
    var outbox: seq<Message>

    function Db(): ProductDb
      reads this
    {
      ProductDb(products, keys, outbox)
    }

    constructor ()
      ensures Db() == ProductDb(map[], map[], [])
    {
      products, keys, outbox := map[], map[], [];
    }

    /** The loop over the lines inside the caller's transaction. */
    method ReserveStock(lines: seq<Line>) returns (taken: seq<PricedLine>, refusal: Option<string>)
      modifies this`products
      ensures Attempt(products, taken, refusal) == Reserve(old(products), lines)
    {
      taken := [];
      for i := 0 to |lines|
        invariant Reserve(old(products), lines) ==
                  (var rest := Reserve(products, lines[i..]); rest.(taken := taken + rest.taken))
      {
        var line := lines[i];
        assert lines[i..][1..] == lines[i + 1..];
        refusal := Refusal(products, line);
        if refusal.Some? {
          assert taken + [] == taken;
          return;
        }
        var product := products[line.productId];
        ghost var rest := Reserve(Take(products, line), lines[i + 1..]);
        assert taken + ([Priced(products, line)] + rest.taken) == taken + [Priced(products, line)] + rest.taken;
        taken := taken + [PricedLine(line.productId, product.name, product.price, line.quantity)];
        products := products[line.productId := product.(stock := product.stock - line.quantity)];
      }
      assert taken + [] == taken;
      refusal := None;
    }

    /** The same loop in its own transaction, as the HTTP endpoint runs it: the error escapes
        and everything is rolled back, so it is all or nothing. */
    method ReserveStockOwnTransaction(lines: seq<Line>) returns (taken: seq<PricedLine>, refusal: Option<string>)
      modifies this`products
      ensures refusal.None? <==> Fits(old(products), lines)
      ensures refusal.None? ==> TakenAway(old(products), products, lines) && PricedLines(taken) == lines
      ensures refusal.Some? ==> products == old(products) && taken == []
    {
      var before := products;
      taken, refusal := ReserveStock(lines);
      ReserveSucceedsIff(before, lines);
      ReserveEffect(before, lines);
      assert lines[..|lines|] == lines;
      if refusal.Some? {
        products, taken := before, [];
      }
    }

    method ReleaseStock(lines: seq<Line>)
      modifies this`products
      ensures products == ReleaseAll(old(products), lines)
    {
      for i := 0 to |lines|
        invariant ReleaseAll(old(products), lines) == ReleaseAll(products, lines[i..])
      {
        assert lines[i..][1..] == lines[i + 1..];
        products := Put(products, lines[i]);
      }
    }

    method HandleReserveStock(command: Message)
      requires command.ReserveStock?
      modifies this
      ensures Db() == HandleReserve(old(Db()), command)
    {
      if command.key in keys {
        outbox := outbox + [keys[command.key]];
        return;
      }
      var taken, refusal := ReserveStock(command.lines);
      var reply: Message;
      match refusal {
        case None =>
          reply := StockReserved(command.key, command.orderId, command.correlationId, taken, PricedTotal(taken));
        case Some(reason) =>
          reply := StockReservationFailed(command.key, command.orderId, command.correlationId, reason);
      }
      keys := keys[command.key := reply];
      outbox := outbox + [reply];
    }

    method HandleReleaseStock(command: Message)
      requires command.ReleaseStock?
      modifies this
      ensures Db() == HandleRelease(old(Db()), command)
    {
      if command.key in keys {
        outbox := outbox + [keys[command.key]];
        return;
      }
      ReleaseStock(command.lines);
      var reply := StockReleased(command.key, command.orderId, command.correlationId);
      keys := keys[command.key := reply];
      outbox := outbox + [reply];
    }
  }

  // ---- effect once, whatever is redelivered ----

  predicate IsStockCommand(m: Message) {
    m.ReserveStock? || m.ReleaseStock?
  }

  predicate AllStockCommands(commands: seq<Message>) {
    forall i :: 0 <= i < |commands| ==> IsStockCommand(commands[i])
  }

  function Handle(db: ProductDb, command: Message): ProductDb
    requires IsStockCommand(command)
  {
    if command.ReserveStock? then HandleReserve(db, command) else HandleRelease(db, command)
  }

  function HandleAll(db: ProductDb, commands: seq<Message>): ProductDb
    requires AllStockCommands(commands)
    decreases |commands|
  {
    if commands == [] then db else HandleAll(Handle(db, commands[0]), commands[1..])
  }

  /** The deliveries whose command id has not been seen before. */
  function FirstDeliveries(commands: seq<Message>, seen: set<CommandKey>): (first: seq<Message>)
    requires AllStockCommands(commands)
    ensures AllStockCommands(first)
    decreases |commands|
  {
    if commands == [] then []
    else if commands[0].key in seen then FirstDeliveries(commands[1..], seen)
    else [commands[0]] + FirstDeliveries(commands[1..], seen + {commands[0].key})
  }

  /** Any delivery sequence, with any redeliveries and resends (even with other contents under
      the same id), leaves the stock and the stored replies of its first deliveries alone. */
  lemma {:induction false} RedeliveriesChangeNothing(db: ProductDb, other: ProductDb, commands: seq<Message>)
    requires AllStockCommands(commands)
    requires db.products == other.products && db.keys == other.keys
    ensures var all, once := HandleAll(db, commands), HandleAll(other, FirstDeliveries(commands, db.keys.Keys));
            all.products == once.products && all.keys == once.keys
    decreases |commands|
  {
    if commands != [] {
      var c, rest := commands[0], commands[1..];
      var first := FirstDeliveries(commands, db.keys.Keys);
      if c.key in db.keys {
        RedeliveriesChangeNothing(Handle(db, c), other, rest);
      } else {
        assert Handle(db, c).keys.Keys == db.keys.Keys + {c.key};
        assert first[1..] == FirstDeliveries(rest, db.keys.Keys + {c.key});
        RedeliveriesChangeNothing(Handle(db, c), Handle(other, c), rest);
      }
    }
  }

  lemma {:induction false} StoredRepliesStay(db: ProductDb, commands: seq<Message>, key: CommandKey)
    requires AllStockCommands(commands)
    requires key in db.keys
    ensures key in HandleAll(db, commands).keys
    ensures HandleAll(db, commands).keys[key] == db.keys[key]
    decreases |commands|
  {
    if commands != [] {
      StoredRepliesStay(Handle(db, commands[0]), commands[1..], key);
    }
  }

  /** Every delivery queues exactly one reply, and it is the one reply ever stored for its
      command id: success and failure can never both be answered. */
  lemma {:induction false} EveryReplyIsTheStoredOne(db: ProductDb, commands: seq<Message>)
    requires AllStockCommands(commands)
    ensures var after := HandleAll(db, commands);
            && |after.outbox| == |db.outbox| + |commands|
            && after.outbox[..|db.outbox|] == db.outbox
            && forall i :: 0 <= i < |commands| ==>
                 && commands[i].key in after.keys
                 && after.outbox[|db.outbox| + i] == after.keys[commands[i].key]
    decreases |commands|
  {
    if commands != [] {
      var next, rest := Handle(db, commands[0]), commands[1..];
      EveryReplyIsTheStoredOne(next, rest);
      StoredRepliesStay(next, rest, commands[0].key);
      var after := HandleAll(db, commands);
      assert after.outbox[|db.outbox|] == after.outbox[..|next.outbox|][|db.outbox|];
      assert after.outbox[..|db.outbox|] == after.outbox[..|next.outbox|][..|db.outbox|];
      forall i | 0 <= i < |commands|
        ensures commands[i].key in after.keys
        ensures after.outbox[|db.outbox| + i] == after.keys[commands[i].key]
      {
        if i > 0 {
          assert commands[i] == rest[i - 1];
        }
      }
    }
  }
}
