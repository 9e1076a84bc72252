/**
  Placing a buy or sell order: validate and coerce the request, record the
  order as Pending, then record the buy or sell and reconcile the portfolio's
  holding of the stock. The database is an object whose fields are the tables;
  each SQL statement the script runs is one method of it.
 */
module PlaceOrder {
  import opened PhpCoercion
  import opened HoldingTable

  /** `NOW()` and `CURDATE()`: opaque values supplied by the database clock. */
  type Timestamp = nat
  type Date = nat

  datatype OrderStatus = Pending | Completed | Cancelled | Failed

  datatype PaymentType = CreditCard | DebitCard | BankTransfer | WireTransfer | Cash

  /** A row of `Orders`. */
  datatype OrderRow = OrderRow(
    id: nat,
    date: Timestamp,
    price: real,
    quantity: int,
    stock: int,
    investor: int,
    status: OrderStatus)

  /** The extension rows of `BuyOrder` and `SellOrder`, keyed by the order's id. */
  datatype BuyOrderRow = BuyOrderRow(paymentType: PaymentType)
  datatype SellOrderRow = SellOrderRow(settlementDate: Date)

  /** The order type after lower-casing. */
  datatype OrderKind = Buy | Sell | Unknown

  /** The request's six fields after coercion. */
  datatype OrderRequest = OrderRequest(
    investor: int,
    portfolio: int,
    stock: int,
    quantity: int,
    price: real,
    kind: OrderKind)

  /** What the script answers: an HTTP error with a message, or the echo of a placed order. */
  datatype Response =
    | Error(code: int, message: string)
    | Placed(
        orderId: nat,
        investor: int,
        portfolio: int,
        stock: int,
        quantity: int,
        price: real,
        status: OrderStatus)

  const RequiredFields: seq<string> := ["sId", "quantity", "price", "type", "investorId", "pId"]
  const MissingFieldsMessage: string := "Missing fields: investorId, sId, quantity, price, type, pId"
  const InvalidTypeMessage: string := "Invalid order type"

  /** `strtolower($data['type'])` compared with 'buy' and 'sell'. */
  function KindOf(t: Scalar): OrderKind {
    match t
    case Str(s) =>
      if Lower(s) == "buy" then Buy
      else if Lower(s) == "sell" then Sell
      else Unknown
    // a number or boolean turns into digits or "" / "1", never a letter
    case _ => Unknown
  }

  /** The type is matched without regard to case ("BUY", "Sell"), but otherwise exactly (" buy" is unknown). */
  lemma KindIgnoresCase(t: Scalar)
    ensures KindOf(t) == Buy <==> t.Str? && SpellsIgnoringCase(t.s, "buy")
    ensures KindOf(t) == Sell <==> t.Str? && SpellsIgnoringCase(t.s, "sell")
  {
  }

  /**
    Lines 10-21 of the script: the request is rejected when it is not a JSON
    object or any of the six fields is absent or null; otherwise each field is
    coerced, none is range-checked.
   */
  function ParseRequest(body: Option<map<string, Scalar>>): (r: Option<OrderRequest>)
    ensures r.Some? <==> body.Some? && forall f :: f in RequiredFields ==> IsSet(body.value, f)
    ensures r.Some? ==> IsSet(body.value, "quantity") && r.value.quantity == IntVal(body.value["quantity"])
    ensures r.Some? ==> IsSet(body.value, "price") && r.value.price == FloatVal(body.value["price"])
    ensures r.Some? ==> IsSet(body.value, "type") && r.value.kind == KindOf(body.value["type"])
    ensures r.Some? ==> IsSet(body.value, "sId") && r.value.stock == IntVal(body.value["sId"])
    ensures r.Some? ==> IsSet(body.value, "pId") && r.value.portfolio == IntVal(body.value["pId"])
    ensures r.Some? ==> IsSet(body.value, "investorId") && r.value.investor == IntVal(body.value["investorId"])
  {
    match body
    case None => None
    case Some(data) =>
      if !(IsSet(data, "sId") && IsSet(data, "quantity") && IsSet(data, "price")
           && IsSet(data, "type") && IsSet(data, "investorId") && IsSet(data, "pId"))
      then None
      else
        Some(OrderRequest(
          IntVal(data["investorId"]),
          IntVal(data["pId"]),
          IntVal(data["sId"]),
          IntVal(data["quantity"]),
          FloatVal(data["price"]),
          KindOf(data["type"])))
  }

  /** The holding table after a parsed request has run: upsert, sell, or nothing for an unknown type. */
  function HoldingsAfter(h: Holdings, req: OrderRequest): (r: Holdings)
    ensures SameExcept(h, r, HoldingKey(req.portfolio, req.stock))
  {
    var key := HoldingKey(req.portfolio, req.stock);
    match req.kind
    case Buy => Upsert(h, key, req.price, req.quantity)
    case Sell => DecrementAndPrune(h, key, req.quantity)
    case Unknown => h
  }

  /**
    An order keeps every holding positive if they all were, unless it is a buy
    whose quantity leaves the bought row at zero or below: the script never
    checks that the quantity is positive.
   */
  lemma OrderKeepsPositive(h: Holdings, req: OrderRequest)
    requires AllPositive(h)
    ensures var key := HoldingKey(req.portfolio, req.stock);
            AllPositive(HoldingsAfter(h, req)) <==>
              req.kind != Buy || (if key in h then h[key].quantity + req.quantity else req.quantity) > 0
  {
  }

  /** The tables the script writes; `nextOrderId` is `Orders`' AUTO_INCREMENT counter. */
  class Database {
    var orders: seq<OrderRow>
    var nextOrderId: nat
    var buyOrders: map<nat, BuyOrderRow>
    var sellOrders: map<nat, SellOrderRow>
    var holdings: Holdings

    ghost function OrderIds(): set<nat>
      reads this
    {
      set i | 0 <= i < |orders| :: orders[i].id
    }

    /**
      Order ids increase along `Orders` and stay below the counter; every
      BuyOrder or SellOrder row extends an existing order, and no order is both.
     */
    ghost predicate Valid()
      reads this
    {
      && (forall i, j :: 0 <= i < j < |orders| ==> orders[i].id < orders[j].id)
      && (forall i :: 0 <= i < |orders| ==> orders[i].id < nextOrderId)
      && buyOrders.Keys <= OrderIds()
      && sellOrders.Keys <= OrderIds()
      && buyOrders.Keys !! sellOrders.Keys
    }

    constructor (holdings: Holdings)
      ensures Valid()
      ensures orders == [] && nextOrderId == 1 && buyOrders == map[] && sellOrders == map[]
      ensures this.holdings == holdings
    {
      orders := [];
      nextOrderId := 1;
      buyOrders := map[];
      sellOrders := map[];
      this.holdings := holdings;
    }

    /**
      Appends an order row with status Pending and the next id from the counter,
      and returns that id (the statement at lines 23-27 and `insert_id`).
     */
    method InsertOrder(date: Timestamp, price: real, quantity: int, stock: int, investor: int) returns (id: nat)
      requires Valid()
      modifies this
      ensures Valid()
      ensures id == old(nextOrderId) && nextOrderId == id + 1
      ensures id !in old(OrderIds()) && OrderIds() == old(OrderIds()) + {id}
      ensures orders == old(orders) + [OrderRow(id, date, price, quantity, stock, investor, Pending)]
      ensures buyOrders == old(buyOrders) && sellOrders == old(sellOrders) && holdings == old(holdings)
    {
      id := nextOrderId;
      orders := orders + [OrderRow(id, date, price, quantity, stock, investor, Pending)];
      nextOrderId := nextOrderId + 1;
      assert OrderIds() == old(OrderIds()) + {id} by {
        forall x | x in OrderIds() ensures x in old(OrderIds()) + {id} {
          var i :| 0 <= i < |orders| && orders[i].id == x;
          if i < |old(orders)| {
            assert old(orders)[i] == orders[i];
          }
        }
        forall x | x in old(OrderIds()) ensures x in OrderIds() {
          var i :| 0 <= i < |old(orders)| && old(orders)[i].id == x;
          assert orders[i] == old(orders)[i];
        }
        assert orders[|orders| - 1].id == id;
      }
    }

    /** Records the order as a buy paid in cash: one row of the buy table under the order's id. */
    method InsertBuyOrder(orderId: nat)
      requires Valid() && orderId in OrderIds() && orderId !in sellOrders
      modifies this
      ensures Valid()
      ensures buyOrders == old(buyOrders)[orderId := BuyOrderRow(Cash)]
      ensures orders == old(orders) && nextOrderId == old(nextOrderId)
      ensures sellOrders == old(sellOrders) && holdings == old(holdings)
    {
      buyOrders := buyOrders[orderId := BuyOrderRow(Cash)];
    }

    /** Records the order as a sell settled today: one row of the sell table under the order's id. */
    method InsertSellOrder(orderId: nat, today: Date)
      requires Valid() && orderId in OrderIds() && orderId !in buyOrders
      modifies this
      ensures Valid()
      ensures sellOrders == old(sellOrders)[orderId := SellOrderRow(today)]
      ensures orders == old(orders) && nextOrderId == old(nextOrderId)
      ensures buyOrders == old(buyOrders) && holdings == old(holdings)
    {
      sellOrders := sellOrders[orderId := SellOrderRow(today)];
    }

    /** Adds the bought shares to the holding of (portfolio, stock), creating the row if there is none. */
    method UpsertHolding(key: HoldingKey, price: real, quantity: int)
      requires Valid()
      modifies this
      ensures Valid()
      ensures holdings == Upsert(old(holdings), key, price, quantity)
      ensures orders == old(orders) && nextOrderId == old(nextOrderId)
      ensures buyOrders == old(buyOrders) && sellOrders == old(sellOrders)
    {
      holdings := Upsert(holdings, key, price, quantity);
    }

    /** Takes the sold shares off the holding of (portfolio, stock), if there is one. */
    method DecrementHolding(key: HoldingKey, quantity: int)
      requires Valid()
      modifies this
      ensures Valid()
      ensures holdings == Decrement(old(holdings), key, quantity)
      ensures orders == old(orders) && nextOrderId == old(nextOrderId)
      ensures buyOrders == old(buyOrders) && sellOrders == old(sellOrders)
    {
      holdings := Decrement(holdings, key, quantity);
    }

    /** Removes the holding of (portfolio, stock) when no shares of it are left. */
    method DeleteHoldingIfNonPositive(key: HoldingKey)
      requires Valid()
      modifies this
      ensures Valid()
      ensures holdings == DeleteIfNonPositive(old(holdings), key)
      ensures orders == old(orders) && nextOrderId == old(nextOrderId)
      ensures buyOrders == old(buyOrders) && sellOrders == old(sellOrders)
    {
      holdings := DeleteIfNonPositive(holdings, key);
    }
  }

  /** Lines 29-42 of the script: the buy branch, for the order just inserted. */
  method RecordBuy(db: Database, orderId: nat, req: OrderRequest)
    requires db.Valid() && orderId in db.OrderIds() && orderId !in db.sellOrders
    requires req.kind == Buy
    modifies db
    ensures db.Valid()
    ensures db.buyOrders == old(db.buyOrders)[orderId := BuyOrderRow(Cash)]
    ensures db.holdings == HoldingsAfter(old(db.holdings), req)
    ensures db.orders == old(db.orders) && db.nextOrderId == old(db.nextOrderId) && db.sellOrders == old(db.sellOrders)
  {
    db.InsertBuyOrder(orderId);
    db.UpsertHolding(HoldingKey(req.portfolio, req.stock), req.price, req.quantity);
  }

  /** Lines 43-58 of the script: the sell branch, for the order just inserted; the update runs before the delete. */
  method RecordSell(db: Database, orderId: nat, req: OrderRequest, today: Date)
    requires db.Valid() && orderId in db.OrderIds() && orderId !in db.buyOrders
    requires req.kind == Sell
    modifies db
    ensures db.Valid()
    ensures db.sellOrders == old(db.sellOrders)[orderId := SellOrderRow(today)]
    ensures db.holdings == HoldingsAfter(old(db.holdings), req)
    ensures db.orders == old(db.orders) && db.nextOrderId == old(db.nextOrderId) && db.buyOrders == old(db.buyOrders)
  {
    var key := HoldingKey(req.portfolio, req.stock);
    db.InsertSellOrder(orderId, today);
    db.DecrementHolding(key, req.quantity);
    db.DeleteHoldingIfNonPositive(key);
  }

  /**
    Lines 23-72 of the script, for a request whose fields are all present.
    Exactly one Pending order is appended first; a buy then adds a Cash BuyOrder
    row and upserts the holding, a sell adds a SellOrder row and
    decrements-then-prunes the holding, and any other type is answered 500 with
    the order row left in place (there is no transaction).
   */
  method ExecuteOrder(db: Database, req: OrderRequest, now: Timestamp, today: Date) returns (resp: Response)
    requires db.Valid()
    modifies db
    ensures db.Valid()
    ensures old(db.nextOrderId) !in old(db.OrderIds()) && db.nextOrderId == old(db.nextOrderId) + 1
    ensures db.orders == old(db.orders) + [OrderRow(old(db.nextOrderId), now, req.price, req.quantity, req.stock, req.investor, Pending)]
    ensures db.buyOrders == if req.kind == Buy then old(db.buyOrders)[old(db.nextOrderId) := BuyOrderRow(Cash)] else old(db.buyOrders)
    ensures db.sellOrders == if req.kind == Sell then old(db.sellOrders)[old(db.nextOrderId) := SellOrderRow(today)] else old(db.sellOrders)
    ensures db.holdings == HoldingsAfter(old(db.holdings), req)
    ensures resp == if req.kind == Unknown then Error(500, InvalidTypeMessage)
                    else Placed(old(db.nextOrderId), req.investor, req.portfolio, req.stock, req.quantity, req.price, Pending)
  {
    var orderId := db.InsertOrder(now, req.price, req.quantity, req.stock, req.investor);
    match req.kind {
      case Buy => RecordBuy(db, orderId, req);
      case Sell => RecordSell(db, orderId, req, today);
      case Unknown => return Error(500, InvalidTypeMessage);
    }
    resp := Placed(orderId, req.investor, req.portfolio, req.stock, req.quantity, req.price, Pending);
  }

  /**
    The whole script: a request with a missing field is answered 400 and writes
    nothing; any other request is executed.
   */
  method PlaceOrder(db: Database, body: Option<map<string, Scalar>>, now: Timestamp, today: Date)
    returns (resp: Response)
    requires db.Valid()
    modifies db
    ensures db.Valid()
    ensures ParseRequest(body).None? ==>
              resp == Error(400, MissingFieldsMessage) && unchanged(db)
    ensures ParseRequest(body).Some? ==>
              var req, id := ParseRequest(body).value, old(db.nextOrderId);
              && id !in old(db.OrderIds())
              && db.nextOrderId == id + 1
              && db.orders == old(db.orders) + [OrderRow(id, now, req.price, req.quantity, req.stock, req.investor, Pending)]
              && db.buyOrders == (if req.kind == Buy then old(db.buyOrders)[id := BuyOrderRow(Cash)] else old(db.buyOrders))
              && db.sellOrders == (if req.kind == Sell then old(db.sellOrders)[id := SellOrderRow(today)] else old(db.sellOrders))
              && db.holdings == HoldingsAfter(old(db.holdings), req)
              && resp == (if req.kind == Unknown then Error(500, InvalidTypeMessage)
                          else Placed(id, req.investor, req.portfolio, req.stock, req.quantity, req.price, Pending))
  {
    var parsed := ParseRequest(body);
    if parsed.None? {
      return Error(400, MissingFieldsMessage);
    }
    resp := ExecuteOrder(db, parsed.value, now, today);
  }

  /** A request body with the six fields, the type given as text. */
  function Body(portfolio: int, stock: int, quantity: Scalar, price: Scalar, kind: string): map<string, Scalar> {
    map["investorId" := Int(1), "pId" := Int(portfolio), "sId" := Int(stock),
        "quantity" := quantity, "price" := price, "type" := Str(kind)]
  }

  /** Such a body is accepted, with its fields coerced as `ParseRequest` promises. */
  lemma BodyParses(portfolio: int, stock: int, quantity: int, price: Scalar, kind: string)
    requires price != Null
    ensures ParseRequest(Some(Body(portfolio, stock, Int(quantity), price, kind))) ==
              Some(OrderRequest(1, portfolio, stock, quantity, FloatVal(price), KindOf(Str(kind))))
  {
  }

  /** Buying 10 shares at 50 into an empty portfolio creates the holding (10, 50). */
  method FirstBuyScenario() {
    var key := HoldingKey(7, 3);
    var db := new Database(map[]);
    assert Lower("buy") == "buy";
    BodyParses(7, 3, 10, Int(50), "buy");
    var r := PlaceOrder(db, Some(Body(7, 3, Int(10), Int(50), "buy")), 0, 0);
    assert r == Placed(1, 1, 7, 3, 10, 50.0, Pending);
    assert db.holdings == map[key := Holding(50.0, 10)];
    assert db.buyOrders == map[1 := BuyOrderRow(Cash)];
  }

  /** Buying 5 more at 60 (type "BUY") gives (15, 60): the price is overwritten, not averaged. */
  method SecondBuyScenario() {
    var key := HoldingKey(7, 3);
    var db := new Database(map[key := Holding(50.0, 10)]);
    assert Lower("BUY") == "buy";
    var body := Body(7, 3, Int(5), Float(60.0), "BUY");
    BodyParses(7, 3, 5, Float(60.0), "BUY");
    var r := PlaceOrder(db, Some(body), 0, 0);
    assert r.Placed?;
    assert db.holdings == map[key := Holding(60.0, 15)];
  }

  /** Selling all 15 shares ("Sell") deletes the holding row. */
  method SellAllScenario() {
    var key := HoldingKey(7, 3);
    var db := new Database(map[key := Holding(60.0, 15)]);
    assert Lower("Sell") == "sell";
    BodyParses(7, 3, 15, Int(70), "Sell");
    var r := PlaceOrder(db, Some(Body(7, 3, Int(15), Int(70), "Sell")), 0, 4);
    assert r.Placed?;
    assert db.holdings == map[];
    assert db.sellOrders == map[1 := SellOrderRow(4)];
  }

  /** An unknown type is answered 500, yet the Pending order row stays. */
  method UnknownTypeScenario() {
    var key := HoldingKey(7, 3);
    var db := new Database(map[key := Holding(60.0, 15)]);
    assert Lower("hold") == "hold";
    BodyParses(7, 3, 1, Int(1), "hold");
    var r := PlaceOrder(db, Some(Body(7, 3, Int(1), Int(1), "hold")), 0, 0);
    assert r == Error(500, InvalidTypeMessage);
    assert |db.orders| == 1 && db.orders[0].status == Pending;
    assert db.holdings == map[key := Holding(60.0, 15)];
  }
}
