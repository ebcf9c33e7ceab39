/** No saga is ever stuck: in every reachable state the command that a running saga waits on has
    been written, and delivering messages that exist, and no others, brings the saga to its end. */
module Finishing {
  import opened Basics
  import opened OrderEntity
  import opened Messages
  import opened Stock
  import opened Orchestrator
  import opened PaymentService
  import opened Notification
  import opened World
  import opened Local
  import opened Invariant
  import opened OrderSteps
  import opened ParticipantSteps
  import opened Ledger
  import opened Safety
  import opened Theorems
  import opened Effects
  import opened Progress
  import S = SagaEntity

  // ---- every running saga has asked ----

  /** The command is that of the step the saga is in. */
  predicate Asks(saga: S.Saga, m: Message) {
    && m.orderId == saga.orderId
    && match saga.step
       case ReserveStock => m.ReserveStock?
       case ProcessPayment => m.ProcessPayment?
       case ReleaseStock => m.ReleaseStock?
       case _ => false
  }

  ghost predicate HasAsked(db: OrderDb, o: string)
    requires o in db.sagas
  {
    exists m :: m in db.outbox && Asks(db.sagas[o], m)
  }

  ghost predicate AllAsked(db: OrderDb) {
    forall o :: o in db.sagas && db.sagas[o].status == S.Running ==> HasAsked(db, o)
  }

  /** At most the saga of `x` has changed, and the outbox has only grown. */
  ghost predicate ChangesOnly(db: OrderDb, after: OrderDb, x: string) {
    && (forall o :: o in after.sagas && o != x ==> o in db.sagas && after.sagas[o] == db.sagas[o])
    && db.outbox <= after.outbox
  }

  lemma AskedAfter(db: OrderDb, after: OrderDb, x: string)
    requires AllAsked(db) && ChangesOnly(db, after, x)
    requires x in after.sagas && after.sagas[x].status == S.Running ==> HasAsked(after, x)
    ensures AllAsked(after)
  {
    forall o | o in after.sagas && after.sagas[o].status == S.Running
      ensures HasAsked(after, o)
    {
      if o != x {
        var m :| m in db.outbox && Asks(db.sagas[o], m);
        assert m in after.outbox;
      }
    }
  }

  lemma AskedByLast(after: OrderDb, x: string, before: seq<Message>, m: Message)
    requires x in after.sagas && after.outbox == before + [m] && Asks(after.sagas[x], m)
    ensures HasAsked(after, x)
  {
    assert m in after.outbox;
  }

  lemma StockReservedAsks(w: World, m: Message, now: int, txn: string)
    requires Inv(w) && AllAsked(w.order) && m in w.network && m.StockReserved? && Waits(w.order, m.orderId, S.ReserveStock)
    ensures AllAsked(Receive(w, m, now, txn).order)
  {
    hide Inv, Receive, AllAsked, HasAsked, MapSeq, ItemPriced;
    ReservationConfirms(w, m, now, txn);
    var after, saga := Receive(w, m, now, txn).order, w.order.sagas[m.orderId];
    AskedByLast(after, m.orderId, w.order.outbox,
                ProcessPayment(CommandKey(saga.id, ForPayment), m.orderId, saga.correlationId,
                               w.order.orders[m.orderId].userId, m.total));
    AskedAfter(w.order, after, m.orderId);
  }

  lemma PaymentFailedAsks(w: World, m: Message, now: int, txn: string)
    requires Inv(w) && AllAsked(w.order) && m in w.network && m.PaymentFailed? && Waits(w.order, m.orderId, S.ProcessPayment)
    ensures AllAsked(Receive(w, m, now, txn).order)
  {
    hide Inv, Receive, AllAsked, HasAsked, ItemLines, PricedLines;
    DeclineAsksForRelease(w, m, now, txn);
    var after, saga := Receive(w, m, now, txn).order, w.order.sagas[m.orderId];
    AskedByLast(after, m.orderId, w.order.outbox,
                ReleaseStock(CommandKey(saga.id, ForRelease), m.orderId, saga.correlationId,
                             ItemLines(w.order.orders[m.orderId].items)));
    AskedAfter(w.order, after, m.orderId);
  }

  lemma EndingAsks(w: World, m: Message, now: int, txn: string)
    requires Inv(w) && AllAsked(w.order) && m in w.network && IsReply(m) && Waits(w.order, m.orderId, StepOf(m))
    requires m.StockReservationFailed? || m.StockReleased? || m.PaymentProcessed?
    ensures AllAsked(Receive(w, m, now, txn).order)
  {
    hide Inv, Receive, AllAsked, HasAsked, MapSeq;
    if m.StockReservationFailed? {
      RefusalCancels(w, m, now, txn);
    } else if m.StockReleased? {
      ReleaseCancels(w, m, now, txn);
    } else {
      PaymentCompletes(w, m, now, txn);
    }
    AskedAfter(w.order, Receive(w, m, now, txn).order, m.orderId);
  }

  lemma OthersLeaveOrders(w: World, m: Message, now: int, txn: string)
    requires !IsReply(m)
    ensures Receive(w, m, now, txn).order == w.order
  {
    hide Reserve, ReleaseAll, HandlePayment, Notify;
  }

  lemma DeliveryAsks(w: World, m: Message, now: int, txn: string)
    requires Inv(w) && AllAsked(w.order) && m in w.network
    ensures AllAsked(Receive(w, m, now, txn).order)
  {
    hide Inv, Receive, AllAsked;
    if !IsReply(m) {
      OthersLeaveOrders(w, m, now, txn);
    } else if !Waits(w.order, m.orderId, StepOf(m)) {
      UnexpectedReplyIsIgnored(w, m, now, txn);
    } else if m.StockReserved? {
      StockReservedAsks(w, m, now, txn);
    } else if m.PaymentFailed? {
      PaymentFailedAsks(w, m, now, txn);
    } else {
      EndingAsks(w, m, now, txn);
    }
  }

  lemma VisitAsks(w: World, o: string, now: int)
    requires Inv(w) && AllAsked(w.order)
    ensures AllAsked(Visit(w, o, now).order)
  {
    hide Inv, Happen, AllAsked, HasAsked, ItemLines;
    VisitRetriesOrGivesUp(w, o, now);
    var after := Visit(w, o, now).order;
    if o in w.order.sagas && w.order.sagas[o].status == S.Running {
      if w.order.sagas[o].retryCount < 3 {
        AskedByLast(after, o, w.order.outbox, CurrentCommand(w.order.sagas[o], w.order.orders[o]));
      }
      AskedAfter(w.order, after, o);
    }
  }

  lemma OrderingAsks(w: World, e: Event)
    requires AllAsked(w.order) && e.Ordered? && Enabled(w, e)
    ensures AllAsked(Happen(w, e).order)
  {
    hide Happen, AllAsked, HasAsked, ItemLines;
    OrderingWrites(w, e);
    var after := Happen(w, e).order;
    AskedByLast(after, e.orderId, w.order.outbox,
                ReserveStock(CommandKey(e.sagaId, ForReserve), e.orderId, e.correlationId, e.lines));
    AskedAfter(w.order, after, e.orderId);
  }

  lemma EventAsks(w: World, e: Event)
    requires Inv(w) && AllAsked(w.order) && Enabled(w, e)
    ensures AllAsked(Happen(w, e).order)
  {
    hide Inv, Receive, CreateOrder, PollOne, HasAsked;
    match e
    case Ordered(_, _, _, _, _, _, _, _) => OrderingAsks(w, e);
    case Delivered(m, now, txn) => DeliveryAsks(w, m, now, txn);
    case Polled(o, now) => VisitAsks(w, o, now);
    case Reloaded(o, _) => AskedElsewhere(w.order, Happen(w, e).order);
    case _ =>
  }

  lemma AskedElsewhere(db: OrderDb, after: OrderDb)
    requires AllAsked(db) && after.sagas == db.sagas && after.outbox == db.outbox
    ensures AllAsked(after)
  {
    forall o | o in after.sagas && after.sagas[o].status == S.Running
      ensures HasAsked(after, o)
    {
      assert HasAsked(db, o);
    }
  }

  /** In every state of every run, the command every running saga waits on is in the outbox. */
  lemma {:induction false} RunHasAsked(ws: seq<World>, i: nat)
    requires Run(ws) && i < |ws|
    ensures AllAsked(ws[i].order)
  {
    if i > 0 {
      hide Initial, AllAsked, Inv, StockBalanced, MoneyBalanced, Enabled, Happen;
      RunHasAsked(ws, i - 1);
      RunIsSafe(ws, i - 1);
      assert Next(ws[i - 1], ws[i - 1 + 1]);
      var e :| Enabled(ws[i - 1], e) && ws[i] == Happen(ws[i - 1], e);
      EventAsks(ws[i - 1], e);
    }
  }

  // ---- every command is answered, every answer moves the saga on ----

  lemma StoredAnswers(v: View)
    requires Ok(v)
    ensures v.reservation.Some? ==> IsReply(v.reservation.value) && StepOf(v.reservation.value) == S.ReserveStock
                                    && v.reservation.value.orderId == v.order.id
    ensures v.payment.Some? ==> IsReply(v.payment.value) && StepOf(v.payment.value) == S.ProcessPayment
                                && v.payment.value.orderId == v.order.id
    ensures v.release.Some? ==> IsReply(v.release.value) && StepOf(v.release.value) == S.ReleaseStock
                                && v.release.value.orderId == v.order.id
  {
    hide SumBy, MapSeq, ItemLines, PricedLines, ItemsTotal, OnePricePerProduct, PricedTotal;
  }

  /** The step whose saga waits on this command. */
  function StepAsking(m: Message): S.Step
    requires m.ReserveStock? || m.ReleaseStock? || m.ProcessPayment?
  {
    if m.ReserveStock? then S.ReserveStock else if m.ReleaseStock? then S.ReleaseStock else S.ProcessPayment
  }

  lemma KnownIsAnswered(w: World, m: Message, now: int, txn: string) returns (reply: Message)
    requires Inv(w) && m in w.network && (m.ReserveStock? || m.ReleaseStock? || m.ProcessPayment?)
    requires if m.ProcessPayment? then m.key in w.payment.keys else m.key in w.product.keys
    ensures var w' := Receive(w, m, now, txn);
            w'.order == w.order && (reply in w'.product.outbox || reply in w'.payment.outbox)
    ensures IsReply(reply) && reply.orderId == m.orderId && StepOf(reply) == StepAsking(m)
  {
    hide Inv, Ok, ViewOf, Receive;
    CommandKeyIsLookedUp(w, m);
    OrderIsOk(w, m.orderId);
    StoredAnswers(ViewOf(w, m.orderId));
    KnownCommandRepeats(w, m, now, txn);
    reply := if m.ProcessPayment? then w.payment.keys[m.key] else w.product.keys[m.key];
  }

  lemma NewIsAnswered(w: World, m: Message, now: int, txn: string) returns (reply: Message)
    requires Inv(w) && m in w.network && (m.ReserveStock? || m.ReleaseStock? || m.ProcessPayment?)
    requires if m.ProcessPayment? then m.key !in w.payment.keys else m.key !in w.product.keys
    ensures var w' := Receive(w, m, now, txn);
            reply in w'.product.outbox || reply in w'.payment.outbox
    ensures IsReply(reply) && reply.orderId == m.orderId && StepOf(reply) == StepAsking(m)
  {
    hide Inv, Receive, TakenAway, Fits, PricedLines, SumBy, Refusal, Show;
    var w' := Receive(w, m, now, txn);
    if m.ReserveStock? {
      var n;
      reply, n := ReserveIsAnswered(w, m, now, txn);
      assert w'.product.outbox == w.product.outbox + [reply];
    } else if m.ReleaseStock? {
      ReleaseIsAnswered(w, m, now, txn);
      reply := StockReleased(m.key, m.orderId, m.correlationId);
      assert w'.product.outbox == w.product.outbox + [reply];
    } else {
      PaymentNeverThrows(w, m, txn);
      PaymentIsAnswered(w, m, now, txn);
      reply := w'.payment.outbox[|w.payment.outbox|];
    }
  }

  /** Delivering a command gets it answered, whether it is new or not. */
  lemma CommandIsAnswered(w: World, m: Message, txn: string) returns (reply: Message)
    requires Safe(w) && Written(w, m) && (m.ReserveStock? || m.ReleaseStock? || m.ProcessPayment?)
    ensures Safe(Pass(w, m, 0, txn)) && Written(Pass(w, m, 0, txn), reply) && Pass(w, m, 0, txn).order == w.order
    ensures IsReply(reply) && reply.orderId == m.orderId && StepOf(reply) == StepAsking(m)
  {
    hide Inv, StockBalanced, MoneyBalanced, Receive, Pass;
    var w0 := PassReceives(w, m, 0, txn);
    OthersLeaveOrders(w0, m, 0, txn);
    if if m.ProcessPayment? then m.key in w.payment.keys else m.key in w.product.keys {
      reply := KnownIsAnswered(w0, m, 0, txn);
    } else {
      reply := NewIsAnswered(w0, m, 0, txn);
    }
  }

  /** The saga has completed, or its order is cancelled. */
  predicate Finished(w: World, o: string) {
    o in w.order.sagas && (w.order.sagas[o].status == S.Succeeded || OrderIs(w, o, Cancelled))
  }

  /** Delivering the answer a saga waits for takes it to a later step, or finishes it. */
  lemma AnswerMovesOn(w: World, o: string, reply: Message, now: int)
    requires Safe(w) && Written(w, reply) && IsReply(reply) && reply.orderId == o && Waits(w.order, o, StepOf(reply))
    ensures Safe(Pass(w, reply, now, ""))
    ensures var w' := Pass(w, reply, now, "");
            && o in w'.order.sagas
            && S.StepRank(w'.order.sagas[o].step) < S.StepRank(w.order.sagas[o].step)
            && (w'.order.sagas[o].status == S.Running || Finished(w', o))
  {
    hide Safe, Pass, Written, MapSeq, PricedLines;
    match reply
    case StockReserved(_, _, _, _, _) => var command := PaymentIsRequested(w, o, reply, now);
    case StockReservationFailed(_, _, _, _) => var reason := OrderIsCancelled(w, o, reply, now);
    case StockReleased(_, _, _) => var reason := OrderIsCancelled(w, o, reply, now);
    case PaymentProcessed(_, _, _, _) => var event := OrderIsConfirmed(w, o, reply, now);
    case PaymentFailed(_, _, _, _) => var command := ReleaseIsRequested(w, o, reply, now);
  }

  lemma AskedCommand(w: World, o: string) returns (m: Message)
    requires Inv(w) && AllAsked(w.order) && o in w.order.sagas && w.order.sagas[o].status == S.Running
    ensures Written(w, m) && m.orderId == o && (m.ReserveStock? || m.ReleaseStock? || m.ProcessPayment?)
    ensures Waits(w.order, o, StepAsking(m))
  {
    hide Inv;
    RowsOf(w, o);
    assert HasAsked(w.order, o);
    m :| m in w.order.outbox && Asks(w.order.sagas[o], m);
  }

  /** From any state of a run, four events take a running saga to a later step or finish it. */
  lemma MovesOn(ws: seq<World>, o: string, now: int, txn: string) returns (longer: seq<World>)
    requires Run(ws)
    requires var w := ws[|ws| - 1]; o in w.order.sagas && w.order.sagas[o].status == S.Running
    ensures Run(longer) && ws <= longer && |longer| == |ws| + 4
    ensures var w, w' := ws[|ws| - 1], longer[|longer| - 1];
            && o in w'.order.sagas
            && S.StepRank(w'.order.sagas[o].step) < S.StepRank(w.order.sagas[o].step)
            && (w'.order.sagas[o].status == S.Running || Finished(w', o))
  {
    hide Next, Initial, Inv, StockBalanced, MoneyBalanced, Pass, Written, AllAsked, Finished;
    var w := ws[|ws| - 1];
    RunIsSafe(ws, |ws| - 1);
    RunHasAsked(ws, |ws| - 1);
    var command := AskedCommand(w, o);
    var reply := CommandIsAnswered(w, command, txn);
    var asked := RunPasses(ws, command, 0, txn);
    AnswerMovesOn(Pass(w, command, 0, txn), o, reply, now);
    longer := RunPasses(asked, reply, now, "");
  }

  /** From every state of every run, and for every running saga, at most twelve more events, each the
      publication or delivery of a message that exists, complete the saga or cancel its order. */
  lemma {:induction false} EverySagaCanFinish(ws: seq<World>, o: string, now: int, txn: string) returns (longer: seq<World>)
    requires Run(ws)
    requires var w := ws[|ws| - 1]; o in w.order.sagas && w.order.sagas[o].status == S.Running
    ensures Run(longer) && ws <= longer && |longer| <= |ws| + 12
    ensures |longer| <= |ws| + 4 * S.StepRank(ws[|ws| - 1].order.sagas[o].step)
    ensures Finished(longer[|longer| - 1], o)
    decreases S.StepRank(ws[|ws| - 1].order.sagas[o].step)
  {
    hide Run, Finished;
    longer := MovesOn(ws, o, now, txn);
    if longer[|longer| - 1].order.sagas[o].status == S.Running {
      longer := EverySagaCanFinish(longer, o, now, txn);
    }
  }
}
