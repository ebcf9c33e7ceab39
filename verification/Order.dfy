/** The order entity of order-service. Money is in integer cents. */
module OrderEntity {
  import opened Basics

  type Money = nat

  /** One line of a command: a product and how many pieces of it. */
  datatype Line = Line(productId: string, quantity: nat)

  /** One line of a stock reply, with the name and price found while reserving. */
  datatype PricedLine = PricedLine(productId: string, name: string, unitPrice: Money, quantity: nat)

  datatype OrderItem = OrderItem(id: string, productId: string, productName: string, quantity: nat, unitPrice: Money)

  datatype OrderStatus = Pending | Confirmed | Cancelled | Completed

  datatype Order = Order(
    id: string,
    userId: string,
    userEmail: string,
    status: OrderStatus,
    total: Money,
    items: seq<OrderItem>)

  // ---- projections and totals ----

  function ItemLine(): OrderItem -> Line {
    (i: OrderItem) => Line(i.productId, i.quantity)
  }

  function PricedLineLine(): PricedLine -> Line {
    (i: PricedLine) => Line(i.productId, i.quantity)
  }

  function ItemPriced(): OrderItem -> PricedLine {
    (i: OrderItem) => PricedLine(i.productId, i.productName, i.unitPrice, i.quantity)
  }

  /** The lines of an order, as it puts them in commands. */
  function ItemLines(items: seq<OrderItem>): seq<Line> {
    MapSeq(items, ItemLine())
  }

  function PricedLines(items: seq<PricedLine>): seq<Line> {
    MapSeq(items, PricedLineLine())
  }

  function QuantityOf(productId: string): Line -> int {
    (l: Line) => if l.productId == productId then l.quantity as int else 0
  }

  /** How many pieces of one product a list of lines asks for, over all its lines. */
  function Demand(lines: seq<Line>, productId: string): (d: nat)
  {
    SumByNonNegative(lines, QuantityOf(productId));
    SumBy(lines, QuantityOf(productId))
  }

  function PricedCost(): PricedLine -> int {
    (i: PricedLine) => i.unitPrice * i.quantity
  }

  function ItemCost(): OrderItem -> int {
    (i: OrderItem) => i.unitPrice * i.quantity
  }

  /** Sum of unit price times quantity, as the stock service totals a reservation. */
  function PricedTotal(items: seq<PricedLine>): Money {
    assert forall i: PricedLine :: PricedCost()(i) >= 0;
    SumByNonNegative(items, PricedCost());
    SumBy(items, PricedCost())
  }

  /** Sum of unit price times quantity over the items the order itself shows. */
  function ItemsTotal(items: seq<OrderItem>): int {
    SumBy(items, ItemCost())
  }

  // ---- transitions ----

  function NewItems(lines: seq<Line>, itemIds: seq<string>): (items: seq<OrderItem>)
    requires |itemIds| == |lines|
    ensures ItemLines(items) == lines
  {
    seq(|lines|, i requires 0 <= i < |lines| => OrderItem(itemIds[i], lines[i].productId, "", lines[i].quantity, 0))
  }

  function Create(id: string, userId: string, userEmail: string, lines: seq<Line>, itemIds: seq<string>): Order
    requires |itemIds| == |lines|
  {
    Order(id, userId, userEmail, Pending, 0, NewItems(lines, itemIds))
  }

  /** The first reply line for a product, as `Array.find` returns it. */
  function FindDetail(details: seq<PricedLine>, productId: string): (d: Option<PricedLine>)
    ensures d.Some? ==> exists i :: 0 <= i < |details| && details[i] == d.value && details[i].productId == productId
                                    && forall j :: 0 <= j < i ==> details[j].productId != productId
    ensures d.None? ==> forall i :: 0 <= i < |details| ==> details[i].productId != productId
  {
    match FindFirst(details, (l: PricedLine) => l.productId == productId)
    case None => None
    case Some(i) => Some(details[i])
  }

  function PriceItem(details: seq<PricedLine>): OrderItem -> OrderItem {
    (item: OrderItem) =>
      match FindDetail(details, item.productId)
      case None => item
      case Some(d) => OrderItem(item.id, item.productId, d.name, item.quantity, d.unitPrice)
  }

  function Confirm(order: Order, total: Money, details: seq<PricedLine>): Outcome<Order> {
    if order.status != Pending then Threw("Cannot transition order to confirmed")
    else Done(order.(status := Confirmed, total := total, items := MapSeq(order.items, PriceItem(details))))
  }

  /** Saga compensation: from pending or confirmed, not after completed. */
  function Compensate(order: Order): Outcome<Order> {
    if order.status == Completed || order.status == Cancelled then Threw("Cannot transition order to cancelled")
    else Done(order.(status := Cancelled))
  }

  // ---- properties ----

  /** Only a pending order can be confirmed, and only a pending or confirmed one cancelled. */
  lemma TransitionsAllowedIff(order: Order, total: Money, details: seq<PricedLine>)
    ensures Confirm(order, total, details).Done? <==> order.status == Pending
    ensures Compensate(order).Done? <==> order.status == Pending || order.status == Confirmed
  {
    match order.status
    case Pending =>
    case Confirmed =>
    case Cancelled =>
    case Completed =>
  }

  lemma DemandPermutation(a: seq<Line>, b: seq<Line>, p: string)
    requires multiset(a) == multiset(b)
    ensures Demand(a, p) == Demand(b, p)
  {
    SumByPermutation(a, b, QuantityOf(p));
  }

  lemma DemandPart(a: seq<Line>, b: seq<Line>, p: string)
    requires multiset(a) <= multiset(b)
    ensures Demand(a, p) <= Demand(b, p)
  {
    SumByPart(a, b, QuantityOf(p));
  }

  /** One price and one name per product: what a reservation made under row locks yields. */
  predicate OnePricePerProduct(details: seq<PricedLine>) {
    forall i, j :: 0 <= i < |details| && 0 <= j < |details| && details[i].productId == details[j].productId
      ==> details[i].unitPrice == details[j].unitPrice && details[i].name == details[j].name
  }

  /** A line with the name and price its product has in the details. */
  function PricedBy(details: seq<PricedLine>): Line -> PricedLine {
    (l: Line) =>
      match FindDetail(details, l.productId)
      case None => PricedLine(l.productId, "", 0, l.quantity)
      case Some(d) => PricedLine(l.productId, d.name, d.unitPrice, l.quantity)
  }

  lemma DetailsPriceThemselves(details: seq<PricedLine>)
    requires OnePricePerProduct(details)
    ensures MapSeq(PricedLines(details), PricedBy(details)) == details
  {
    hide MapSeq;
    forall k | 0 <= k < |details|
      ensures PricedBy(details)(PricedLines(details)[k]) == details[k]
    {
      var d := FindDetail(details, details[k].productId);
      var j :| 0 <= j < |details| && details[j] == d.value && details[j].productId == details[k].productId;
    }
  }

  lemma LineOccurs(lines: seq<Line>, details: seq<PricedLine>, k: nat)
    requires k < |lines|
    requires multiset(lines) == multiset(PricedLines(details))
    ensures FindDetail(details, lines[k].productId).Some?
  {
    assert lines[k] in multiset(PricedLines(details));
    var j :| 0 <= j < |details| && PricedLines(details)[j] == lines[k];
    assert details[j].productId == lines[k].productId;
  }

  lemma ItemsArePriced(items: seq<OrderItem>, details: seq<PricedLine>)
    requires multiset(ItemLines(items)) == multiset(PricedLines(details))
    ensures MapSeq(MapSeq(items, PriceItem(details)), ItemPriced()) == MapSeq(ItemLines(items), PricedBy(details))
    ensures ItemLines(MapSeq(items, PriceItem(details))) == ItemLines(items)
  {
    hide MapSeq;
    var priced := MapSeq(items, PriceItem(details));
    forall k | 0 <= k < |items|
      ensures ItemPriced()(priced[k]) == PricedBy(details)(ItemLines(items)[k])
      ensures ItemLine()(priced[k]) == ItemLines(items)[k]
    {
      LineOccurs(ItemLines(items), details, k);
    }
  }

  lemma ItemsTotalIsPricedTotal(items: seq<OrderItem>)
    ensures ItemsTotal(items) == PricedTotal(MapSeq(items, ItemPriced()))
  {
    SumByMap(items, ItemPriced(), PricedCost(), ItemCost());
  }

  /** Confirming an order with the details of a reservation of the same lines, in any order
      and with repeated products, gives it exactly the reservation's lines, with their names and
      prices; so the items add up to the reservation's total, and no line has changed. */
  lemma ConfirmPricesEveryItem(order: Order, details: seq<PricedLine>)
    requires order.status == Pending && OnePricePerProduct(details)
    requires multiset(ItemLines(order.items)) == multiset(PricedLines(details))
    ensures var confirmed := Confirm(order, PricedTotal(details), details);
            && confirmed.Done?
            && multiset(MapSeq(confirmed.value.items, ItemPriced())) == multiset(details)
            && ItemsTotal(confirmed.value.items) == PricedTotal(details)
            && ItemLines(confirmed.value.items) == ItemLines(order.items)
  {
    hide MapSeq, SumBy;
    var confirmed := Confirm(order, PricedTotal(details), details).value;
    ItemsArePriced(order.items, details);
    MapSeqPermutation(ItemLines(order.items), PricedLines(details), PricedBy(details));
    DetailsPriceThemselves(details);
    ItemsTotalIsPricedTotal(confirmed.items);
    SumByPermutation(MapSeq(confirmed.items, ItemPriced()), details, PricedCost());
  }

  /** Reloading the same rows in another order changes neither the lines nor the totals. */
  lemma ReorderKeepsTotals(a: seq<OrderItem>, b: seq<OrderItem>)
    requires multiset(a) == multiset(b)
    ensures multiset(ItemLines(a)) == multiset(ItemLines(b))
    ensures ItemsTotal(a) == ItemsTotal(b)
    ensures multiset(MapSeq(a, ItemPriced())) == multiset(MapSeq(b, ItemPriced()))
  {
    MapSeqPermutation(a, b, ItemLine());
    MapSeqPermutation(a, b, ItemPriced());
    SumByPermutation(a, b, ItemCost());
  }
}
