/** The system invariant, and the frame rule that reduces a step to the one order it is about. */
module Invariant {
  import opened Basics
  import opened OrderEntity
  import opened Messages
  import opened Orchestrator
  import opened World
  import opened Local
  import S = SagaEntity

  /** Every order has its saga, and saga ids are distinct uuids. */
  ghost predicate Linked(db: OrderDb) {
    && db.orders.Keys == db.sagas.Keys
    && (forall o :: o in db.orders ==> db.orders[o].id == o)
    && (forall o :: o in db.sagas ==> db.sagas[o].orderId == o && |db.sagas[o].id| == UUID_LENGTH)
    && (forall a, b :: a in db.sagas && b in db.sagas && db.sagas[a].id == db.sagas[b].id ==> a == b)
  }

  /** The key belongs to the saga of some order. */
  ghost predicate Owned(db: OrderDb, k: CommandKey) {
    exists o :: o in db.sagas && db.sagas[o].id == k.sagaId
  }

  /** The other tables only speak of existing orders. */
  ghost predicate Anchored(w: World) {
    && (forall k :: k in w.product.keys ==> Owned(w.order, k))
    && (forall k :: k in w.payment.keys ==> Owned(w.order, k))
    && w.payment.payments.Keys <= w.order.orders.Keys
    && w.leaks.Keys <= w.order.orders.Keys
    && (forall k :: k in w.notify.log ==> k.orderId in w.order.orders)
    && (forall i :: 0 <= i < |w.notify.emails| ==> w.notify.emails[i].orderId in w.order.orders)
    && (forall k :: k in w.notify.log <==> k in w.notify.emails)
  }

  /** Only written messages are published. */
  ghost predicate PublishedWereWritten(w: World) {
    forall m :: m in w.network ==> Written(w, m)
  }

  /** The tables refer to each other as they should. */
  ghost predicate Wired(w: World) {
    Linked(w.order) && Anchored(w) && PublishedWereWritten(w)
  }

  ghost predicate OrdersOk(w: World)
    requires Wired(w)
  {
    forall o :: o in w.order.orders ==> Ok(ViewOf(w, o))
  }

  ghost predicate LegalHere(w: World, m: Message)
    requires Wired(w)
  {
    m.orderId in w.order.orders && Legal(ViewOf(w, m.orderId), m)
  }

  ghost predicate MessagesLegal(w: World)
    requires Wired(w)
  {
    forall m :: Written(w, m) ==> LegalHere(w, m)
  }

  /** The part of the invariant about orders and messages. */
  ghost predicate Inv(w: World) {
    Wired(w) && OrdersOk(w) && MessagesLegal(w)
  }

  // ---- frame ----

  /** Only what concerns order `o` has changed, it has only grown, it is still fine, and the
      only new message, if any, is a legal one about `o`. */
  ghost predicate StepAt(w: World, w': World, o: string)
    requires Wired(w) && Wired(w')
  {
    && o in w.order.orders
    && w'.order.orders.Keys == w.order.orders.Keys
    && Grows(ViewOf(w, o), ViewOf(w', o))
    && Ok(ViewOf(w', o))
    && (forall x :: x in w.order.orders && x != o ==> ViewOf(w', x) == ViewOf(w, x))
    && (forall m :: Written(w', m) ==> Written(w, m) || (m.orderId == o && Legal(ViewOf(w', o), m)))
  }

  lemma EveryOrderHasASaga(w: World)
    requires Wired(w)
    ensures w.order.orders.Keys == w.order.sagas.Keys
  {
  }

  lemma LegalCarries(w: World, w': World, o: string, m: Message)
    requires Inv(w) && Wired(w') && StepAt(w, w', o) && Written(w', m)
    ensures LegalHere(w', m)
  {
    if Written(w, m) {
      assert LegalHere(w, m);
      if m.orderId == o {
        LegalStays(ViewOf(w, o), ViewOf(w', o), m);
      }
    }
  }

  lemma StepAtKeepsInv(w: World, w': World, o: string)
    requires Inv(w) && Wired(w') && StepAt(w, w', o)
    ensures Inv(w')
  {
    hide Ok, Legal, Grows, ViewOf, Wired;
    EveryOrderHasASaga(w);
    EveryOrderHasASaga(w');
    assert OrdersOk(w');
    forall m | Written(w', m)
      ensures LegalHere(w', m)
    {
      LegalCarries(w, w', o, m);
    }
  }

  lemma StepAtGrows(w: World, w': World, o: string, x: string)
    requires Wired(w) && Wired(w') && StepAt(w, w', o) && x in w.order.orders
    ensures x in w'.order.orders && Grows(ViewOf(w, x), ViewOf(w', x))
  {
    GrowsReflexive(ViewOf(w, x));
  }

  lemma CountsAppend(outbox: seq<Message>, m: Message, o: string)
    ensures SumBy(outbox + [m], RowFor(o)) == SumBy(outbox, RowFor(o)) + RowFor(o)(m)
    ensures SumBy(outbox + [m], OutcomeFor(o)) == SumBy(outbox, OutcomeFor(o)) + OutcomeFor(o)(m)
  {
    SumByAppend(outbox, [m], RowFor(o));
    SumByAppend(outbox, [m], OutcomeFor(o));
  }

  /** The world after an orchestrator transaction: order and saga of `o` replaced, and maybe one
      message written. */
  function Orchestrated(w: World, o: string, order: Order, saga: S.Saga, sent: Option<Message>): World {
    w.(order := OrderDb(w.order.orders[o := order], w.order.sagas[o := saga],
                        if sent.Some? then w.order.outbox + [sent.value] else w.order.outbox))
  }

  predicate SameIdentity(w: World, o: string, order: Order, saga: S.Saga)
    requires o in w.order.sagas
  {
    order.id == o && saga.orderId == o && saga.id == w.order.sagas[o].id
  }

  lemma OwnedStays(db: OrderDb, db': OrderDb, k: CommandKey)
    requires Owned(db, k)
    requires forall o :: o in db.sagas ==> o in db'.sagas && db'.sagas[o].id == db.sagas[o].id
    ensures Owned(db', k)
  {
    var x :| x in db.sagas && db.sagas[x].id == k.sagaId;
    assert db'.sagas[x].id == k.sagaId;
  }

  lemma OrchestratedWired(w: World, o: string, order: Order, saga: S.Saga, sent: Option<Message>)
    requires Wired(w) && o in w.order.orders && SameIdentity(w, o, order, saga)
    ensures Wired(Orchestrated(w, o, order, saga, sent))
  {
    var w' := Orchestrated(w, o, order, saga, sent);
    assert Linked(w'.order);
    forall k | Owned(w.order, k) ensures Owned(w'.order, k) {
      OwnedStays(w.order, w'.order, k);
    }
    assert Anchored(w');
  }

  lemma OrchestratedView(w: World, o: string, order: Order, saga: S.Saga, sent: Option<Message>)
    requires o in w.order.orders && o in w.order.sagas && SameIdentity(w, o, order, saga)
    requires sent.Some? ==> sent.value.orderId == o
    ensures var w' := Orchestrated(w, o, order, saga, sent);
            o in w'.order.orders && o in w'.order.sagas && ViewOf(w', o) == After(ViewOf(w, o), order, saga, sent)
  {
    hide SumBy;
    if sent.Some? {
      CountsAppend(w.order.outbox, sent.value, o);
    }
  }

  lemma OrchestratedOtherViews(w: World, o: string, order: Order, saga: S.Saga, sent: Option<Message>, x: string)
    requires x in w.order.orders && x in w.order.sagas && x != o && (sent.Some? ==> sent.value.orderId == o)
    ensures var w' := Orchestrated(w, o, order, saga, sent);
            x in w'.order.orders && x in w'.order.sagas && ViewOf(w', x) == ViewOf(w, x)
  {
    hide SumBy;
    if sent.Some? {
      CountsAppend(w.order.outbox, sent.value, x);
    }
  }

  lemma OrchestratedStepAt(w: World, o: string, order: Order, saga: S.Saga, sent: Option<Message>)
    requires Inv(w) && o in w.order.orders && SameIdentity(w, o, order, saga)
    requires ProperStep(ViewOf(w, o), order, saga, sent)
    requires sent.Some? ==> sent.value.orderId == o
    ensures Wired(Orchestrated(w, o, order, saga, sent))
    ensures StepAt(w, Orchestrated(w, o, order, saga, sent), o)
  {
    hide Ok, Legal, Grows, ViewOf, After, Wired, OrdersOk, MessagesLegal;
    var w' := Orchestrated(w, o, order, saga, sent);
    EveryOrderHasASaga(w);
    OrchestratedWired(w, o, order, saga, sent);
    EveryOrderHasASaga(w');
    OrchestratedView(w, o, order, saga, sent);
    forall x | x in w.order.orders && x != o
      ensures ViewOf(w', x) == ViewOf(w, x)
    {
      OrchestratedOtherViews(w, o, order, saga, sent, x);
    }
  }

  lemma OrchestratedStep(w: World, o: string, order: Order, saga: S.Saga, sent: Option<Message>)
    requires Inv(w) && o in w.order.orders && SameIdentity(w, o, order, saga)
    requires ProperStep(ViewOf(w, o), order, saga, sent)
    ensures Keeps(w, Orchestrated(w, o, order, saga, sent))
  {
    hide Ok, Legal, Grows, After, Orchestrated;
    OrchestratedStepAt(w, o, order, saga, sent);
    StepAtKeeps(w, Orchestrated(w, o, order, saga, sent), o);
  }

  /** Nothing about any existing order has been undone. */
  ghost predicate Grown(w: World, w': World)
    requires Wired(w) && Wired(w')
  {
    forall x :: x in w.order.orders ==> x in w'.order.orders && Grows(ViewOf(w, x), ViewOf(w', x))
  }

  /** What every step is shown to do. */
  ghost predicate Keeps(w: World, w': World)
    requires Wired(w)
  {
    Inv(w') && Grown(w, w')
  }

  lemma StepAtKeeps(w: World, w': World, o: string)
    requires Inv(w) && Wired(w') && StepAt(w, w', o)
    ensures Keeps(w, w')
  {
    hide Ok, Legal, Grows, ViewOf;
    StepAtKeepsInv(w, w', o);
    forall x | x in w.order.orders
      ensures x in w'.order.orders && Grows(ViewOf(w, x), ViewOf(w', x))
    {
      StepAtGrows(w, w', o, x);
    }
  }

  lemma StutterKeeps(w: World)
    requires Inv(w)
    ensures Keeps(w, w)
  {
    hide Ok, Legal, Grows, ViewOf;
    forall x | x in w.order.orders
      ensures Grows(ViewOf(w, x), ViewOf(w, x))
    {
      GrowsReflexive(ViewOf(w, x));
    }
  }
}
