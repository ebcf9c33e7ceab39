/** Stock arithmetic of product-service: what the reserve and release loops do to the product
    table, and what that means for whole lists of lines. */
module Stock {
  import opened Basics
  import opened OrderEntity

  datatype Product = Product(name: string, price: Money, stock: nat, isActive: bool)

  type Catalogue = map<string, Product>

  /** What is left of a reservation attempt: the table as written so far, the lines taken, and
      the message of the domain error if one stopped the loop. */
  datatype Attempt = Attempt(products: Catalogue, taken: seq<PricedLine>, refusal: Option<string>)

  /** The domain error a line runs into, if any. */
  function Refusal(products: Catalogue, line: Line): Option<string> {
    if line.productId !in products || !products[line.productId].isActive then
      Some("Product " + line.productId + " not found")
    else if products[line.productId].stock < line.quantity then
      Some("Insufficient stock for product " + line.productId + ": requested " + Show(line.quantity)
           + ", available " + Show(products[line.productId].stock))
    else None
  }

  /** The table after one line is taken. */
  function Take(products: Catalogue, line: Line): Catalogue
    requires Refusal(products, line).None?
  {
    var p := products[line.productId];
    products[line.productId := p.(stock := p.stock - line.quantity)]
  }

  function Priced(products: Catalogue, line: Line): PricedLine
    requires line.productId in products
  {
    var p := products[line.productId];
    PricedLine(line.productId, p.name, p.price, line.quantity)
  }

  /** Line by line, stopping at the first refusal and keeping what was written before it. */
  function Reserve(products: Catalogue, lines: seq<Line>): Attempt {
    if lines == [] then Attempt(products, [], None)
    else match Refusal(products, lines[0])
      case Some(reason) => Attempt(products, [], Some(reason))
      case None =>
        var rest := Reserve(Take(products, lines[0]), lines[1..]);
        rest.(taken := [Priced(products, lines[0])] + rest.taken)
  }

  /** `UPDATE ... SET stock = stock + quantity`, which touches no row when there is none. */
  function Put(products: Catalogue, line: Line): Catalogue {
    if line.productId in products then
      var p := products[line.productId];
      products[line.productId := p.(stock := p.stock + line.quantity)]
    else products
  }

  function ReleaseAll(products: Catalogue, lines: seq<Line>): Catalogue {
    if lines == [] then products else ReleaseAll(Put(products, lines[0]), lines[1..])
  }

  // ---- the loops, as aggregate updates ----

  /** `after` is `before` with the quantities of `lines` taken away, product by product. */
  predicate TakenAway(before: Catalogue, after: Catalogue, lines: seq<Line>) {
    && after.Keys == before.Keys
    && forall p :: p in before ==>
         && before[p].stock == after[p].stock + Demand(lines, p)
         && after[p] == before[p].(stock := after[p].stock)
  }

  lemma DemandHead(lines: seq<Line>, p: string)
    requires lines != []
    ensures Demand(lines, p) == QuantityOf(p)(lines[0]) + Demand(lines[1..], p)
  {
  }

  lemma TakenAwayFirst(before: Catalogue, lines: seq<Line>, after: Catalogue)
    requires lines != [] && Refusal(before, lines[0]).None?
    requires TakenAway(Take(before, lines[0]), after, lines[1..])
    ensures TakenAway(before, after, lines)
  {
    forall p | p in before
      ensures before[p].stock == after[p].stock + Demand(lines, p)
    {
      DemandHead(lines, p);
    }
  }

  lemma {:induction false} ReserveTakesPrefix(products: Catalogue, lines: seq<Line>)
    ensures var a := Reserve(products, lines);
            && |a.taken| <= |lines|
            && PricedLines(a.taken) == lines[..|a.taken|]
            && (a.refusal.None? <==> |a.taken| == |lines|)
  {
    if lines != [] && Refusal(products, lines[0]).None? {
      var a, rest := Reserve(products, lines), Reserve(Take(products, lines[0]), lines[1..]);
      ReserveTakesPrefix(Take(products, lines[0]), lines[1..]);
      assert PricedLines(a.taken) == [lines[0]] + PricedLines(rest.taken);
      assert lines[..|a.taken|] == [lines[0]] + lines[1..][..|rest.taken|];
    }
  }

  lemma {:induction false} ReserveTakesStock(products: Catalogue, lines: seq<Line>)
    requires |Reserve(products, lines).taken| <= |lines|
    ensures TakenAway(products, Reserve(products, lines).products, lines[..|Reserve(products, lines).taken|])
  {
    if lines != [] && Refusal(products, lines[0]).None? {
      var next, n := Take(products, lines[0]), |Reserve(products, lines).taken|;
      ReserveTakesStock(next, lines[1..]);
      assert lines[..n][1..] == lines[1..][..n - 1];
      TakenAwayFirst(products, lines[..n], Reserve(products, lines).products);
    }
  }

  lemma {:induction false} ReservePrices(products: Catalogue, lines: seq<Line>, i: nat)
    requires i < |Reserve(products, lines).taken|
    ensures var t := Reserve(products, lines).taken[i];
            t.productId in products && t.name == products[t.productId].name && t.unitPrice == products[t.productId].price
  {
    if i > 0 {
      ReservePrices(Take(products, lines[0]), lines[1..], i - 1);
    }
  }

  /** Whatever happens, exactly the quantities of the lines before the stop are gone, they are
      the lines reported, and each is reported at the price and name in the table. */
  lemma ReserveEffect(products: Catalogue, lines: seq<Line>)
    ensures var a := Reserve(products, lines);
            && |a.taken| <= |lines|
            && PricedLines(a.taken) == lines[..|a.taken|]
            && TakenAway(products, a.products, lines[..|a.taken|])
            && (a.refusal.None? <==> |a.taken| == |lines|)
            && (forall i :: 0 <= i < |a.taken| ==>
                  && a.taken[i].productId in products
                  && a.taken[i].name == products[a.taken[i].productId].name
                  && a.taken[i].unitPrice == products[a.taken[i].productId].price)
  {
    ReserveTakesPrefix(products, lines);
    ReserveTakesStock(products, lines);
    forall i | 0 <= i < |Reserve(products, lines).taken|
      ensures var t := Reserve(products, lines).taken[i];
              t.productId in products && t.name == products[t.productId].name && t.unitPrice == products[t.productId].price
    {
      ReservePrices(products, lines, i);
    }
  }

  /** A refusal is that of the line after the ones taken, in the table as it then is. */
  lemma {:induction false} RefusalIsOfNextLine(products: Catalogue, lines: seq<Line>)
    requires Reserve(products, lines).refusal.Some?
    ensures var a := Reserve(products, lines);
            |a.taken| < |lines| && a.refusal == Refusal(a.products, lines[|a.taken|])
  {
    if Refusal(products, lines[0]).None? {
      RefusalIsOfNextLine(Take(products, lines[0]), lines[1..]);
    }
  }

  lemma ReservePricesOnce(products: Catalogue, lines: seq<Line>)
    ensures OnePricePerProduct(Reserve(products, lines).taken)
  {
    ReserveEffect(products, lines);
  }

  /** The aggregate condition: every product named is there and active, and the whole demand
      for it, over all its lines, fits its stock. */
  predicate Fits(products: Catalogue, lines: seq<Line>) {
    forall i :: 0 <= i < |lines| ==>
      && lines[i].productId in products
      && products[lines[i].productId].isActive
      && Demand(lines, lines[i].productId) <= products[lines[i].productId].stock
  }

  /** The line-by-line loop succeeds exactly when the aggregate condition holds, repeated
      products included. */
  lemma {:induction false} ReserveSucceedsIff(products: Catalogue, lines: seq<Line>)
    ensures Reserve(products, lines).refusal.None? <==> Fits(products, lines)
  {
    if lines != [] {
      var head, tail := lines[0], lines[1..];
      DemandHead(lines, head.productId);
      if Refusal(products, head).None? {
        var next := Take(products, head);
        ReserveSucceedsIff(next, tail);
        if Fits(next, tail) {
          forall i | 0 <= i < |lines|
            ensures lines[i].productId in products && products[lines[i].productId].isActive
            ensures Demand(lines, lines[i].productId) <= products[lines[i].productId].stock
          {
            var p := lines[i].productId;
            DemandHead(lines, p);
            if i > 0 {
              assert tail[i - 1].productId == p;
            } else if forall j :: 0 <= j < |tail| ==> tail[j].productId != p {
              DemandOfAbsent(tail, p);
            }
          }
        }
        if Fits(products, lines) {
          forall i | 0 <= i < |tail|
            ensures tail[i].productId in next && next[tail[i].productId].isActive
            ensures Demand(tail, tail[i].productId) <= next[tail[i].productId].stock
          {
            assert lines[i + 1] == tail[i];
            DemandHead(lines, tail[i].productId);
          }
        }
      }
    }
  }

  lemma {:induction false} DemandOfAbsent(lines: seq<Line>, p: string)
    requires forall j :: 0 <= j < |lines| ==> lines[j].productId != p
    ensures Demand(lines, p) == 0
  {
    if lines != [] {
      DemandHead(lines, p);
      DemandOfAbsent(lines[1..], p);
    }
  }

  /** A refused reservation is meant to leave the table alone, but the lines before the failing
      one have been written. With positive quantities it leaves the table alone exactly when
      the very first line is the one refused. */
  lemma RefusalLeavesStockIff(products: Catalogue, lines: seq<Line>)
    requires Reserve(products, lines).refusal.Some?
    requires forall i :: 0 <= i < |lines| ==> lines[i].quantity > 0
    ensures Reserve(products, lines).products == products <==> Refusal(products, lines[0]).Some?
  {
    if Refusal(products, lines[0]).None? {
      ReserveEffect(products, lines);
      var a := Reserve(products, lines);
      DemandHead(lines[..|a.taken|], lines[0].productId);
      assert a.products[lines[0].productId].stock < products[lines[0].productId].stock;
    }
  }

  /** Two lines, the second one too large: the first line's stock is gone. */
  lemma RefusalCanLeak()
    ensures var products: Catalogue := map["a" := Product("A", 100, 5, true), "b" := Product("B", 100, 0, true)];
            var a := Reserve(products, [Line("a", 2), Line("b", 1)]);
            a.refusal.Some? && a.products["a"].stock == 3
  {
    var products: Catalogue := map["a" := Product("A", 100, 5, true), "b" := Product("B", 100, 0, true)];
    var lines := [Line("a", 2), Line("b", 1)];
    assert lines[1..] == [Line("b", 1)];
    assert Refusal(products, lines[0]).None?;
    assert Reserve(Take(products, lines[0]), lines[1..]).refusal.Some?;
  }

  lemma {:induction false} ReleaseEffect(products: Catalogue, lines: seq<Line>)
    ensures TakenAway(ReleaseAll(products, lines), products, lines)
  {
    if lines != [] {
      var next := Put(products, lines[0]);
      ReleaseEffect(next, lines[1..]);
      forall p | p in products
        ensures ReleaseAll(products, lines)[p].stock == products[p].stock + Demand(lines, p)
      {
        DemandHead(lines, p);
      }
    }
  }

  // ---- reserve, anything in between, release ----

  datatype StockOp = Reserving(lines: seq<Line>) | Releasing(lines: seq<Line>)

  function Apply(products: Catalogue, op: StockOp): Catalogue {
    match op
    case Reserving(lines) => Reserve(products, lines).products
    case Releasing(lines) => ReleaseAll(products, lines)
  }

  function ApplyAll(products: Catalogue, ops: seq<StockOp>): Catalogue
    decreases |ops|
  {
    if ops == [] then products else ApplyAll(Apply(products, ops[0]), ops[1..])
  }

  /** Every reservation of the sequence goes through. */
  predicate AllSucceed(products: Catalogue, ops: seq<StockOp>)
    decreases |ops|
  {
    ops == [] || ( && (ops[0].Reserving? ==> Fits(products, ops[0].lines))
                   && AllSucceed(Apply(products, ops[0]), ops[1..]))
  }

  /** Every reservation of the sequence takes equally many lines from both tables, whether it
      then goes through or is refused. */
  predicate SameStops(high: Catalogue, low: Catalogue, ops: seq<StockOp>)
    decreases |ops|
  {
    ops == [] || ( && (ops[0].Reserving? ==> |Reserve(high, ops[0].lines).taken| == |Reserve(low, ops[0].lines).taken|)
                   && SameStops(Apply(high, ops[0]), Apply(low, ops[0]), ops[1..]))
  }

  lemma OpKeepsOffset(high: Catalogue, low: Catalogue, lines: seq<Line>, op: StockOp)
    requires TakenAway(high, low, lines)
    requires op.Reserving? ==> |Reserve(high, op.lines).taken| == |Reserve(low, op.lines).taken|
    ensures TakenAway(Apply(high, op), Apply(low, op), lines)
  {
    match op
    case Reserving(ls) =>
      ReserveEffect(low, ls);
      ReserveEffect(high, ls);
    case Releasing(ls) =>
      ReleaseEffect(low, ls);
      ReleaseEffect(high, ls);
  }

  lemma {:induction false} OpsKeepOffset(high: Catalogue, low: Catalogue, lines: seq<Line>, ops: seq<StockOp>)
    requires TakenAway(high, low, lines) && SameStops(high, low, ops)
    ensures TakenAway(ApplyAll(high, ops), ApplyAll(low, ops), lines)
    decreases |ops|
  {
    if ops != [] {
      OpKeepsOffset(high, low, lines, ops[0]);
      OpsKeepOffset(Apply(high, ops[0]), Apply(low, ops[0]), lines, ops[1..]);
    }
  }

  /** Reserving, letting any other reservations, accepted or refused, and any releases happen, and
      then releasing the same lines in any order leaves exactly the table those others alone
      would have left, provided ours did not make another reservation stop earlier. */
  lemma ReserveThenReleaseIsInvisible(products: Catalogue, lines: seq<Line>, back: seq<Line>, others: seq<StockOp>)
    requires Fits(products, lines) && multiset(back) == multiset(lines)
    requires SameStops(products, Reserve(products, lines).products, others)
    ensures ReleaseAll(ApplyAll(Reserve(products, lines).products, others), back) == ApplyAll(products, others)
  {
    var taken := Reserve(products, lines).products;
    ReserveTakesAll(products, lines);
    OpsKeepOffset(products, taken, lines, others);
    PutBack(ApplyAll(products, others), ApplyAll(taken, others), lines, back);
  }

  lemma ReserveTakesAll(products: Catalogue, lines: seq<Line>)
    requires Fits(products, lines)
    ensures |Reserve(products, lines).taken| == |lines|
    ensures TakenAway(products, Reserve(products, lines).products, lines)
  {
    ReserveSucceedsIff(products, lines);
    ReserveEffect(products, lines);
    assert lines[..|lines|] == lines;
  }

  lemma {:induction false} SuccessesStopAlike(high: Catalogue, low: Catalogue, lines: seq<Line>, ops: seq<StockOp>)
    requires TakenAway(high, low, lines) && AllSucceed(low, ops)
    ensures AllSucceed(high, ops) && SameStops(high, low, ops)
    decreases |ops|
  {
    if ops != [] {
      if ops[0].Reserving? {
        ReserveTakesAll(low, ops[0].lines);
        assert Fits(high, ops[0].lines);
        ReserveTakesAll(high, ops[0].lines);
      }
      OpKeepsOffset(high, low, lines, ops[0]);
      SuccessesStopAlike(Apply(high, ops[0]), Apply(low, ops[0]), lines, ops[1..]);
    }
  }

  /** The proviso holds whenever every other reservation goes through while ours is held; they
      would then go through without ours as well. */
  lemma InvisibleAmidSuccesses(products: Catalogue, lines: seq<Line>, back: seq<Line>, others: seq<StockOp>)
    requires Fits(products, lines) && multiset(back) == multiset(lines)
    requires AllSucceed(Reserve(products, lines).products, others)
    ensures AllSucceed(products, others)
    ensures ReleaseAll(ApplyAll(Reserve(products, lines).products, others), back) == ApplyAll(products, others)
  {
    ReserveTakesAll(products, lines);
    SuccessesStopAlike(products, Reserve(products, lines).products, lines, others);
    ReserveThenReleaseIsInvisible(products, lines, back, others);
  }

  /** The last piece is reserved, another order is refused it, and it is given back: without the
      reservation the other order would have had it. */
  lemma ReservationCanBeVisible()
    ensures var products: Catalogue := map["a" := Product("A", 100, 1, true)];
            var lines := [Line("a", 1)];
            && Fits(products, lines)
            && ReleaseAll(ApplyAll(Reserve(products, lines).products, [Reserving(lines)]), lines)
               != ApplyAll(products, [Reserving(lines)])
  {
    var products: Catalogue := map["a" := Product("A", 100, 1, true)];
    var lines := [Line("a", 1)];
    assert Demand(lines, "a") == 1 by { DemandHead(lines, "a"); }
    assert lines[0].quantity > 0;
    ReserveTakesAll(products, lines);
    var low := Reserve(products, lines).products;
    assert low["a"].stock == 0;
    assert Refusal(low, lines[0]).Some?;
    assert |Reserve(low, lines).taken| == 0;
    OneOtherUnaffectedIff(products, lines, lines, lines);
    var one := [Reserving(lines)];
    assert one[1..] == [];
    assert ApplyAll(low, one) == Apply(low, one[0]) && ApplyAll(products, one) == Apply(products, one[0]);
  }

  lemma LongerPrefixAsksMore(lines: seq<Line>, a: nat, b: nat)
    requires a < b <= |lines| && lines[a].quantity > 0
    ensures Demand(lines[..a], lines[a].productId) < Demand(lines[..b], lines[a].productId)
  {
    var p := lines[a].productId;
    assert lines[..b] == lines[..a] + lines[a..b];
    SumByAppend(lines[..a], lines[a..b], QuantityOf(p));
    DemandHead(lines[a..b], p);
  }

  /** The tables `products` loses `lines` to, cut at two different places, differ. */
  lemma DifferentStopsDiffer(products: Catalogue, a: Catalogue, b: Catalogue, lines: seq<Line>, m: nat, n: nat)
    requires m < n <= |lines| && lines[m].quantity > 0 && lines[m].productId in products
    requires TakenAway(products, a, lines[..m]) && TakenAway(products, b, lines[..n])
    ensures a != b
  {
    LongerPrefixAsksMore(lines, m, n);
    assert a[lines[m].productId].stock != b[lines[m].productId].stock;
  }

  /** What is left after ours is given back is the table without ours, less what the other took. */
  lemma GivenBackAround(products: Catalogue, lines: seq<Line>, back: seq<Line>, other: seq<Line>)
    requires Fits(products, lines) && multiset(back) == multiset(lines)
    ensures var attempt := Reserve(Reserve(products, lines).products, other);
            && |attempt.taken| <= |other|
            && TakenAway(products, ReleaseAll(attempt.products, back), other[..|attempt.taken|])
  {
    var low := Reserve(products, lines).products;
    var attempt := Reserve(low, other);
    ReserveTakesAll(products, lines);
    ReserveEffect(low, other);
    ReleaseEffect(attempt.products, back);
    forall p | p in products
      ensures products[p].stock == ReleaseAll(attempt.products, back)[p].stock + Demand(other[..|attempt.taken|], p)
    {
      DemandPermutation(lines, back, p);
    }
  }

  /** Exactly when ours is invisible to one other reservation of positive quantities: when it stops
      at the same line with ours held as without. */
  lemma OneOtherUnaffectedIff(products: Catalogue, lines: seq<Line>, back: seq<Line>, other: seq<Line>)
    requires Fits(products, lines) && multiset(back) == multiset(lines)
    requires forall i :: 0 <= i < |other| ==> other[i].quantity > 0
    ensures var low := Reserve(products, lines).products;
            ReleaseAll(Reserve(low, other).products, back) == Reserve(products, other).products <==>
            |Reserve(low, other).taken| == |Reserve(products, other).taken|
  {
    var low := Reserve(products, lines).products;
    var held, free := Reserve(low, other), Reserve(products, other);
    ReserveTakesAll(products, lines);
    GivenBackAround(products, lines, back, other);
    ReserveEffect(products, other);
    ReserveEffect(low, other);
    var x, y := ReleaseAll(held.products, back), free.products;
    var m, n := |held.taken|, |free.taken|;
    if m == n {
      SameTaken(products, x, y, other[..m]);
    } else if m < n {
      assert PricedLines(free.taken)[m] == other[m];
      DifferentStopsDiffer(products, x, y, other, m, n);
    } else {
      assert PricedLines(held.taken)[n] == other[n];
      DifferentStopsDiffer(products, y, x, other, n, m);
    }
  }

  lemma SameTaken(products: Catalogue, a: Catalogue, b: Catalogue, lines: seq<Line>)
    requires TakenAway(products, a, lines) && TakenAway(products, b, lines)
    ensures a == b
  {
  }

  lemma PutBack(high: Catalogue, low: Catalogue, lines: seq<Line>, back: seq<Line>)
    requires TakenAway(high, low, lines) && multiset(back) == multiset(lines)
    ensures ReleaseAll(low, back) == high
  {
    ReleaseEffect(low, back);
    forall p | p in high
      ensures ReleaseAll(low, back)[p] == high[p]
    {
      DemandPermutation(lines, back, p);
    }
  }
}
