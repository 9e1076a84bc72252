/**
  Portfolio valuation: `SUM(Quantity * 100.00)` over one portfolio's holdings,
  `COALESCE`d to 0 when it has none. Every share is priced at the placeholder
  100, so a row's purchase price plays no part. The lemmas tie the value to the
  holding transitions an order performs.
 */
module PortfolioValue {
  import opened PhpCoercion
  import opened HoldingTable
  import opened PlaceOrder

  /** The placeholder unit price the query multiplies every quantity by. */
  const UnitPrice: int := 100

  const MissingPIdMessage: string := "Missing pId parameter"

  /** The script's answer: 400 with a message, or the total value. */
  datatype ValueResponse = BadRequest(message: string) | TotalValue(value: int)

  /** The `Quantity` row `k` contributes to portfolio `p`'s sum: its own when it belongs to `p`, else none. */
  ghost function Share(h: Holdings, k: HoldingKey, p: int): int
    requires k in h
  {
    if k.portfolio == p then h[k].quantity else 0
  }

  /** No row of the table belongs to portfolio `p`. */
  ghost predicate NoRowsOf(h: Holdings, p: int) {
    forall k :: k in h ==> k.portfolio != p
  }

  /** The sum of `Quantity` over the rows whose `P_ID` is `p`; 0 for an empty table. */
  ghost function QuantitySum(h: Holdings, p: int): int
    decreases |h|
  {
    if h == map[] then 0
    else
      var k :| k in h;
      assert |h - {k}| < |h| by {
        assert (h - {k}).Keys == h.Keys - {k};
      }
      Share(h, k, p) + QuantitySum(h - {k}, p)
  }

  /** The total value the query computes for portfolio `p`. */
  ghost function Value(h: Holdings, p: int): int {
    UnitPrice * QuantitySum(h, p)
  }

  /** The sum does not depend on the order rows are taken in: any row can be taken out first. */
  lemma {:induction false} QuantitySumRemove(h: Holdings, k: HoldingKey, p: int)
    requires k in h
    ensures QuantitySum(h, p) == Share(h, k, p) + QuantitySum(h - {k}, p)
    decreases |h|
  {
    var j :| j in h && QuantitySum(h, p) == Share(h, j, p) + QuantitySum(h - {j}, p);
    if j != k {
      assert (h - {j}).Keys == h.Keys - {j};
      assert (h - {k}).Keys == h.Keys - {k};
      QuantitySumRemove(h - {j}, k, p);
      QuantitySumRemove(h - {k}, j, p);
      assert Share(h - {j}, k, p) == Share(h, k, p);
      assert Share(h - {k}, j, p) == Share(h, j, p);
      assert h - {j} - {k} == h - {k} - {j};
    }
  }

  /** The two tables have the same rows of portfolio `p`, with the same quantities. */
  ghost predicate SamePortfolioRows(h1: Holdings, h2: Holdings, p: int) {
    && (forall k :: k in h1 && k.portfolio == p ==> k in h2 && h2[k].quantity == h1[k].quantity)
    && (forall k :: k in h2 && k.portfolio == p ==> k in h1)
  }

  /**
    Only the rows of portfolio `p`, and only their quantities, matter: rows of
    other portfolios and every purchase price can differ.
   */
  lemma {:induction false} QuantitySumIgnoresOthers(h1: Holdings, h2: Holdings, p: int)
    requires SamePortfolioRows(h1, h2, p)
    ensures QuantitySum(h1, p) == QuantitySum(h2, p)
    decreases |h1| + |h2|
  {
    if h1 != map[] {
      var k :| k in h1;
      assert |h1 - {k}| < |h1| by {
        assert (h1 - {k}).Keys == h1.Keys - {k};
      }
      QuantitySumRemove(h1, k, p);
      if k.portfolio == p {
        assert |h2 - {k}| < |h2| by {
          assert (h2 - {k}).Keys == h2.Keys - {k};
        }
        QuantitySumRemove(h2, k, p);
        assert SamePortfolioRows(h1 - {k}, h2 - {k}, p);
        QuantitySumIgnoresOthers(h1 - {k}, h2 - {k}, p);
      } else {
        assert SamePortfolioRows(h1 - {k}, h2, p);
        QuantitySumIgnoresOthers(h1 - {k}, h2, p);
      }
    } else if h2 != map[] {
      var k :| k in h2;
      assert |h2 - {k}| < |h2| by {
        assert (h2 - {k}).Keys == h2.Keys - {k};
      }
      QuantitySumRemove(h2, k, p);
      assert SamePortfolioRows(h1, h2 - {k}, p);
      QuantitySumIgnoresOthers(h1, h2 - {k}, p);
    }
  }

  /** A portfolio with no holdings is worth exactly 0 (the COALESCE), not an error. */
  lemma NoHoldingsValueZero(h: Holdings, p: int)
    requires NoRowsOf(h, p)
    ensures Value(h, p) == 0
  {
    QuantitySumIgnoresOthers(h, map[], p);
  }

  lemma {:induction false} QuantitySumNonNegative(h: Holdings, p: int)
    requires AllPositive(h)
    ensures QuantitySum(h, p) >= 0
    decreases |h|
  {
    if h != map[] {
      var k :| k in h;
      assert (h - {k}).Keys == h.Keys - {k};
      QuantitySumRemove(h, k, p);
      QuantitySumNonNegative(h - {k}, p);
    }
  }

  /** When every row is positive, the value is never negative, and it is 0 exactly when the portfolio holds nothing. */
  lemma PositiveHoldingsValue(h: Holdings, p: int)
    requires AllPositive(h)
    ensures Value(h, p) >= 0
    ensures Value(h, p) == 0 <==> NoRowsOf(h, p)
  {
    QuantitySumNonNegative(h, p);
    if NoRowsOf(h, p) {
      NoHoldingsValueZero(h, p);
    } else {
      var k :| k in h && k.portfolio == p;
      QuantitySumRemove(h, k, p);
      QuantitySumNonNegative(h - {k}, p);
    }
  }

  /** Replacing (or adding) one row changes the sum by the difference of that row's shares. */
  lemma QuantitySumSet(h: Holdings, k: HoldingKey, v: Holding, p: int)
    ensures QuantitySum(h[k := v], p) ==
              QuantitySum(h, p) - (if k in h then Share(h, k, p) else 0) + (if k.portfolio == p then v.quantity else 0)
  {
    var h' := h[k := v];
    QuantitySumRemove(h', k, p);
    if k in h {
      QuantitySumRemove(h, k, p);
      assert h' - {k} == h - {k};
    } else {
      assert h' - {k} == h;
    }
  }

  /** A buy of `qty` shares raises its own portfolio's value by 100 * `qty` and leaves every other portfolio's value alone. */
  lemma BuyChangesValue(h: Holdings, key: HoldingKey, price: real, qty: int, p: int)
    ensures Value(Upsert(h, key, price, qty), p) == Value(h, p) + (if key.portfolio == p then UnitPrice * qty else 0)
  {
    var v := Holding(price, if key in h then h[key].quantity + qty else qty);
    assert Upsert(h, key, price, qty) == h[key := v];
    QuantitySumSet(h, key, v, p);
  }

  /**
    A sell lowers its own portfolio's value by 100 * `qty` while shares remain,
    by 100 * the whole quantity held when the row is deleted, and not at all
    when nothing was held; other portfolios keep their value.
   */
  lemma SellChangesValue(h: Holdings, key: HoldingKey, qty: int, p: int)
    ensures Value(DecrementAndPrune(h, key, qty), p) ==
              Value(h, p) - (if key.portfolio == p && key in h
                             then UnitPrice * (if h[key].quantity - qty > 0 then qty else h[key].quantity)
                             else 0)
  {
    var r := DecrementAndPrune(h, key, qty);
    if key in h {
      QuantitySumRemove(h, key, p);
      if h[key].quantity - qty > 0 {
        QuantitySumSet(h, key, Holding(h[key].purchasePrice, h[key].quantity - qty), p);
        assert r == h[key := Holding(h[key].purchasePrice, h[key].quantity - qty)];
      } else {
        assert r == h - {key};
      }
    }
  }

  /** An order changes no portfolio's value but the one it names. */
  lemma OrderKeepsOtherValues(h: Holdings, req: OrderRequest, p: int)
    requires p != req.portfolio
    ensures Value(HoldingsAfter(h, req), p) == Value(h, p)
  {
    QuantitySumIgnoresOthers(HoldingsAfter(h, req), h, p);
  }

  /**
    What an order does to the value of the portfolio it names: a buy adds
    100 * quantity, a sell takes away 100 * what it actually removed, and an
    order of unknown type changes nothing.
   */
  lemma OrderChangesValue(h: Holdings, req: OrderRequest)
    ensures var key, p := HoldingKey(req.portfolio, req.stock), req.portfolio;
            Value(HoldingsAfter(h, req), p) ==
              Value(h, p) + match req.kind
                            case Buy => UnitPrice * req.quantity
                            case Sell => if key !in h then 0
                                         else if h[key].quantity - req.quantity > 0 then -UnitPrice * req.quantity
                                         else -UnitPrice * h[key].quantity
                            case Unknown => 0
  {
    var key := HoldingKey(req.portfolio, req.stock);
    match req.kind
    case Buy => BuyChangesValue(h, key, req.price, req.quantity, req.portfolio);
    case Sell => SellChangesValue(h, key, req.quantity, req.portfolio);
    case Unknown =>
  }

  /** What the script's answer rests on: exactly 0 for a portfolio with no rows, and never negative when every row is positive. */
  lemma ValueBounds(h: Holdings, p: int)
    ensures NoRowsOf(h, p) ==> Value(h, p) == 0
    ensures AllPositive(h) ==> Value(h, p) >= 0
  {
    if NoRowsOf(h, p) {
      NoHoldingsValueZero(h, p);
    }
    if AllPositive(h) {
      PositiveHoldingsValue(h, p);
    }
  }

  /**
    Lines 13-21 of the script: 400 when `pId` is absent; otherwise the value of
    the portfolio `intval(pId)` names. The call only reads the table.
   */
  ghost function CalculatePortfolioValue(query: map<string, string>, h: Holdings): (r: ValueResponse)
    ensures "pId" !in query ==> r == BadRequest(MissingPIdMessage)
    ensures "pId" in query ==> r == TotalValue(Value(h, IntVal(Str(query["pId"]))))
    ensures "pId" in query && NoRowsOf(h, IntVal(Str(query["pId"]))) ==> r == TotalValue(0)
    ensures "pId" in query && AllPositive(h) ==> r.value >= 0
  {
    if "pId" !in query then BadRequest(MissingPIdMessage)
    else
      var p := IntVal(Str(query["pId"]));
      ValueBounds(h, p);
      TotalValue(Value(h, p))
  }
}
