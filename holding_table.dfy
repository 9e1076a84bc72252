/**
  The `Holding` table: at most one row per (portfolio, stock) pair, so the table
  is a map from that pair to the row's purchase price and quantity. The three
  functions below are the three statements an order runs against it.
 */
module HoldingTable {

  /** The table's unique key (`P_ID`, `S_ID`). */
  datatype HoldingKey = HoldingKey(portfolio: int, stock: int)

  /** The rest of a row: `Purchase_Price` and `Quantity`. */
  datatype Holding = Holding(purchasePrice: real, quantity: int)

  type Holdings = map<HoldingKey, Holding>

  /** Every row in the table holds a positive quantity. */
  ghost predicate AllPositive(h: Holdings) {
    forall k :: k in h ==> h[k].quantity > 0
  }

  /** Rows other than `key` are the same in both tables (present in both with equal values, or in neither). */
  ghost predicate SameExcept(h: Holdings, r: Holdings, key: HoldingKey) {
    forall k :: k != key ==> (k in h <==> k in r) && (k in h ==> h[k] == r[k])
  }

  /**
    INSERT ... ON DUPLICATE KEY UPDATE: a new row with the order's price and
    quantity, or, when the row exists, its quantity increased by the order's and
    its price overwritten by the order's (prices are not averaged).
   */
  function Upsert(h: Holdings, key: HoldingKey, price: real, qty: int): (r: Holdings)
    ensures r.Keys == h.Keys + {key}
    ensures r[key].purchasePrice == price
    ensures key !in h ==> r[key].quantity == qty
    ensures key in h ==> r[key].quantity == h[key].quantity + qty
    ensures SameExcept(h, r, key)
  {
    if key in h then h[key := Holding(price, h[key].quantity + qty)]
    else h[key := Holding(price, qty)]
  }

  /** UPDATE ... SET Quantity = Quantity - qty: touches the row `key` if there is one, and nothing else. */
  function Decrement(h: Holdings, key: HoldingKey, qty: int): (r: Holdings)
    ensures r.Keys == h.Keys
    ensures key in h ==> r[key] == Holding(h[key].purchasePrice, h[key].quantity - qty)
    ensures SameExcept(h, r, key)
  {
    if key in h then h[key := h[key].(quantity := h[key].quantity - qty)] else h
  }

  /** DELETE ... WHERE Quantity <= 0, restricted to the row `key`. */
  function DeleteIfNonPositive(h: Holdings, key: HoldingKey): (r: Holdings)
    ensures key in h && h[key].quantity <= 0 ==> r.Keys == h.Keys - {key}
    ensures !(key in h && h[key].quantity <= 0) ==> r == h
    ensures forall k :: k in r ==> k in h && r[k] == h[k]
  {
    if key in h && h[key].quantity <= 0 then h - {key} else h
  }

  /**
    The sell branch: decrement, then delete the row if it fell to zero or below.
    A sell against a missing row leaves the table alone and is not rejected; a
    sell of more than is held removes the row.
   */
  function DecrementAndPrune(h: Holdings, key: HoldingKey, qty: int): (r: Holdings)
    ensures key !in h ==> r == h
    ensures key in h && h[key].quantity - qty > 0 ==>
              key in r && r[key] == Holding(h[key].purchasePrice, h[key].quantity - qty)
    ensures key in h && h[key].quantity - qty <= 0 ==> key !in r
    ensures key in r ==> r[key].quantity > 0
    ensures SameExcept(h, r, key)
  {
    DeleteIfNonPositive(Decrement(h, key, qty), key)
  }

  /** A sell never creates a non-positive row: a table of positive rows stays that way, whatever the quantity. */
  lemma SellKeepsPositive(h: Holdings, key: HoldingKey, qty: int)
    requires AllPositive(h)
    ensures AllPositive(DecrementAndPrune(h, key, qty))
  {
  }

  /**
    A buy keeps every row positive exactly when the bought row ends up positive:
    a buy of zero or fewer shares of a stock not held creates a row that is not.
   */
  lemma BuyKeepsPositive(h: Holdings, key: HoldingKey, price: real, qty: int)
    requires AllPositive(h)
    ensures AllPositive(Upsert(h, key, price, qty)) <==> (if key in h then h[key].quantity + qty else qty) > 0
  {
  }

  /**
    Why the update runs before the delete: deleting first and decrementing
    afterwards would keep a row whose quantity is zero or below.
   */
  lemma DeleteBeforeDecrementKeepsRow(h: Holdings, key: HoldingKey, qty: int)
    requires key in h && 0 < h[key].quantity <= qty
    ensures key in Decrement(DeleteIfNonPositive(h, key), key, qty)
    ensures Decrement(DeleteIfNonPositive(h, key), key, qty)[key].quantity <= 0
    ensures key !in DecrementAndPrune(h, key, qty)
  {
  }
}
