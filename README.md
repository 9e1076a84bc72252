# Order placement and portfolio valuation, modelled in Dafny

This project models two PHP scripts of a stock-portfolio web application.

- `place_order.php` places a buy or sell order. It checks that the six request fields are present and coerces them with `intval`, `floatval` and `strtolower`. It then appends a `Pending` row to `Orders`. For a buy it adds a `BuyOrder` row and upserts the `Holding` row of (portfolio, stock). For a sell it adds a `SellOrder` row, decrements that `Holding` row, and deletes it when its quantity is zero or below. Any other type is answered with an error, after the order row has already been written.
- `calculate_portfolio_value.php` answers `SUM(Quantity * 100.00)` over one portfolio's holdings, or 0 when the portfolio holds nothing. Every share is priced at the placeholder 100.

The files:

- `php_coercion.dfy` (module `PhpCoercion`): decoded JSON scalars, `isset`, and `intval`, `floatval` and `strtolower` on them.
- `holding_table.dfy` (module `HoldingTable`): the `Holding` table as a map from (`P_ID`, `S_ID`) to (`Purchase_Price`, `Quantity`). It defines the three statements an order runs on the table: upsert, decrement, and delete-if-non-positive.
- `place_order.dfy` (module `PlaceOrder`): request parsing and the class `Database`. Its fields are the tables `Orders`, `BuyOrder`, `SellOrder` and `Holding`, plus the `AUTO_INCREMENT` counter of `Orders`. Each SQL statement of the script is one method of the class. The method `PlaceOrder` runs the script in the source's order, and a few scenario methods walk through a buy, a second buy, a sell-all and an unknown type.
- `portfolio_value.dfy` (module `PortfolioValue`): the aggregate as a recursive function over the map. Its lemmas relate the aggregate to the order transitions.

The `Holding` map has one row per (portfolio, stock). That is what `ON DUPLICATE KEY UPDATE` at `place_order.php:37` implies; the table's DDL is not part of this model.

Three things the code does, which the model keeps:

- The script never range-checks the quantity or the price. It rejects only missing or null fields: `intval("abc")` is 0 and `intval("-5")` is -5, and such orders go through. So a buy can create a holding whose quantity is not positive (`HoldingTable.BuyKeepsPositive`, `PlaceOrder.OrderKeepsPositive`).
- An unknown order type is rejected only after the `Orders` row has been written (line 23 runs before the test at line 29), and nothing removes that row.
- Only the `Orders` insert's result is checked (line 26). The results of the later statements are never looked at.

## Model

| member | source | states |
|---|---|---|
| `PhpCoercion.IntVal` | phasethree-backend/xamppfiles/place_order.php:16-19 | `intval` of a decoded scalar lies in PHP's 64-bit range for everything but a JSON float |
| `PhpCoercion.StrToIntTruncates` | phasethree-backend/xamppfiles/place_order.php:16-20 | for text, `intval` is `floatval` rounded toward zero and saturated to the 64-bit range |
| `PhpCoercion.IntValTruncatesFloatVal` | phasethree-backend/xamppfiles/place_order.php:16-20 | for every scalar, `intval` agrees with `floatval` cast toward zero (saturated for text) |
| `PhpCoercion.FractionValue` | phasethree-backend/xamppfiles/place_order.php:20 | the digits after a decimal point are worth at least 0 and less than 1 |
| `PhpCoercion.DecimalPrefixIntVal` | phasethree-backend/xamppfiles/place_order.php:16-19 | a 64-bit integer written in decimal reads back as that integer when the text after it starts with neither a digit, nor a point, nor an exponent ("12abc" reads as 12) |
| `PhpCoercion.DecimalPrefixFloatVal` | phasethree-backend/xamppfiles/place_order.php:20 | an integer written in decimal, followed by text that starts with neither a digit, nor a point, nor an exponent, reads back as that number |
| `PhpCoercion.Lower` | phasethree-backend/xamppfiles/place_order.php:21 | `strtolower` keeps the length and lower-cases each character |
| `PhpCoercion.LowerMatches` | phasethree-backend/xamppfiles/place_order.php:21 | the lower-cased text equals a lower-case word exactly when the text spells that word in any mix of cases (`SpellsIgnoringCase`) |
| `PlaceOrder.KindIgnoresCase` | phasethree-backend/xamppfiles/place_order.php:21-43 | the type is a buy exactly when it is text spelling "buy" in any case, and a sell likewise for "sell"; anything else, " buy" included, is unknown |
| `PlaceOrder.ParseRequest` | phasethree-backend/xamppfiles/place_order.php:10-21 | a request is accepted exactly when it is an object in which all six fields are set and not null; each accepted field is its coerced value |
| `PlaceOrder.HoldingsAfter` | phasethree-backend/xamppfiles/place_order.php:29-61 | an order changes no holding row except that of its own (portfolio, stock) |
| `PlaceOrder.OrderKeepsPositive` | phasethree-backend/xamppfiles/place_order.php:29-58 | from all-positive holdings, an order leaves them all positive exactly when it is not a buy whose row ends at zero or below |
| `PlaceOrder.Database.InsertOrder` | phasethree-backend/xamppfiles/place_order.php:23-27 | appends one `Pending` row with the request's price, quantity, stock and investor; its id is the counter's value, which is fresh and is returned; the other tables are unchanged; the table invariant holds |
| `PlaceOrder.Database.InsertBuyOrder` | phasethree-backend/xamppfiles/place_order.php:30-32 | adds one `BuyOrder` row with payment type `Cash`, keyed by the order's id; keeps every extension row attached to exactly one existing order |
| `PlaceOrder.Database.InsertSellOrder` | phasethree-backend/xamppfiles/place_order.php:44-46 | adds one `SellOrder` row with today's settlement date, keyed by the order's id; keeps the same invariant |
| `PlaceOrder.Database.UpsertHolding` | phasethree-backend/xamppfiles/place_order.php:34-42 | the holding table becomes the upsert of the old one; the other tables are unchanged |
| `PlaceOrder.Database.DecrementHolding` | phasethree-backend/xamppfiles/place_order.php:48-54 | the holding table becomes the decrement of the old one; the other tables are unchanged |
| `PlaceOrder.Database.DeleteHoldingIfNonPositive` | phasethree-backend/xamppfiles/place_order.php:56-58 | the holding table loses the order's row if its quantity is zero or below; the other tables are unchanged |
| `PlaceOrder.RecordBuy` | phasethree-backend/xamppfiles/place_order.php:29-42 | the buy branch adds a `Cash` `BuyOrder` row for the order and upserts the holding; `Orders` and `SellOrder` are unchanged; the table invariant is kept |
| `PlaceOrder.RecordSell` | phasethree-backend/xamppfiles/place_order.php:43-58 | the sell branch adds a `SellOrder` row for the order and decrements, then prunes, the holding; `Orders` and `BuyOrder` are unchanged; the table invariant is kept |
| `PlaceOrder.ExecuteOrder` | phasethree-backend/xamppfiles/place_order.php:23-72 | exactly one `Pending` order with a fresh id is appended, before the type is looked at. A buy or sell then changes its extension table and the holding as above, and the response echoes the order's id and fields with status `Pending`. An unknown type gives 500 and changes no holding or extension table, but its order row stays |
| `PlaceOrder.PlaceOrder` | phasethree-backend/xamppfiles/place_order.php:8-76 | a request with a missing field gives 400 and changes no table; any other request has exactly the effect and response of `ExecuteOrder` on its coerced fields; the table invariant is kept |
| `HoldingTable.Upsert` | phasethree-backend/xamppfiles/place_order.php:34-42 | a buy creates the row with the order's quantity and price when it is absent; otherwise it adds the quantity to the row's and overwrites the price (no averaging); no other row changes |
| `HoldingTable.Decrement` | phasethree-backend/xamppfiles/place_order.php:48-54 | subtracts the quantity from the order's row if it exists, keeping its price; nothing else changes and no row appears |
| `HoldingTable.DeleteIfNonPositive` | phasethree-backend/xamppfiles/place_order.php:56-58 | removes the order's row exactly when it exists with a quantity of zero or below; every remaining row is unchanged |
| `HoldingTable.DecrementAndPrune` | phasethree-backend/xamppfiles/place_order.php:48-58 | with no row, the sell changes nothing and is not rejected. A row with quantity left above zero stays with old − quantity; otherwise the row is deleted. Afterwards the row is absent or positive, and no other row changes |
| `HoldingTable.SellKeepsPositive` | phasethree-backend/xamppfiles/place_order.php:48-58 | a sell of any quantity keeps a table of positive rows positive |
| `HoldingTable.BuyKeepsPositive` | phasethree-backend/xamppfiles/place_order.php:34-42 | a buy keeps a table of positive rows positive exactly when the bought row ends up positive |
| `HoldingTable.DeleteBeforeDecrementKeepsRow` | phasethree-backend/xamppfiles/place_order.php:48-58 | running the delete before the update would leave a row at zero or below where the source's order removes it |
| `PortfolioValue.QuantitySumRemove` | phasethree-backend/xamppfiles/calculate_portfolio_value.php:21 | the sum does not depend on the order rows are visited in: any row can be taken out first |
| `PortfolioValue.QuantitySumIgnoresOthers` | phasethree-backend/xamppfiles/calculate_portfolio_value.php:21 | two tables that agree on which rows belong to the portfolio, and on those rows' quantities, give the same sum: other portfolios and every purchase price play no part |
| `PortfolioValue.NoHoldingsValueZero` | phasethree-backend/xamppfiles/calculate_portfolio_value.php:21 | a portfolio with no holdings is worth exactly 0 |
| `PortfolioValue.QuantitySumNonNegative` | phasethree-backend/xamppfiles/calculate_portfolio_value.php:21 | when every row is positive the quantity sum is not negative |
| `PortfolioValue.PositiveHoldingsValue` | phasethree-backend/xamppfiles/calculate_portfolio_value.php:21 | when every row is positive the value is not negative, and it is 0 exactly when the portfolio holds nothing |
| `PortfolioValue.QuantitySumSet` | phasethree-backend/xamppfiles/calculate_portfolio_value.php:21 | replacing or adding one row changes the sum by the difference between the new and the old row's share |
| `PortfolioValue.BuyChangesValue` | phasethree-backend/xamppfiles/calculate_portfolio_value.php:21 | a buy (`place_order.php` lines 34-42) adds 100 × quantity to its portfolio's value and leaves every other portfolio's value alone |
| `PortfolioValue.SellChangesValue` | phasethree-backend/xamppfiles/calculate_portfolio_value.php:21 | a sell (`place_order.php` lines 48-58) takes 100 × quantity off its portfolio's value while shares remain, 100 × the held quantity when the row is deleted, and nothing when no row was held |
| `PortfolioValue.OrderChangesValue` | phasethree-backend/xamppfiles/calculate_portfolio_value.php:21 | the change in the named portfolio's value for each order type, unknown types changing nothing |
| `PortfolioValue.OrderKeepsOtherValues` | phasethree-backend/xamppfiles/calculate_portfolio_value.php:21 | an order changes no portfolio's value except the one it names |
| `PortfolioValue.ValueBounds` | phasethree-backend/xamppfiles/calculate_portfolio_value.php:21 | the value is exactly 0 for a portfolio with no rows, and never negative when every row is positive |
| `PortfolioValue.CalculatePortfolioValue` | phasethree-backend/xamppfiles/calculate_portfolio_value.php:13-21 | a missing `pId` gives 400 and computes nothing. Otherwise the answer is 100 × the quantity sum of portfolio `intval(pId)`: exactly 0 when it holds nothing, and not negative when every row is positive. It only reads the table |

## Left out

- HTTP plumbing is not modelled: the CORS headers, the `OPTIONS` early exit, `json_encode` of the answer, and status codes beyond the 400/500/success split. The request body is taken already decoded, either as an object (a map from field name to scalar) or as nothing for invalid JSON or a non-object.
- PlaceOrder.PlaceOrder: a failing `Orders` insert (line 26, reported as 500) is not modelled. Every statement is taken to succeed, including the later ones whose results the script never checks. Foreign keys, column types and any other schema rule are not part of this model.
- PortfolioValue.CalculatePortfolioValue: the query is taken to succeed. The 500 answer to a failing execution (lines 24-27) is not modelled, and neither is the float conversion of the total.
- PlaceOrder.Database.InsertOrder: the `AUTO_INCREMENT` counter is modelled as starting at 1 and stepping by 1. Gaps that MySQL may leave are not modelled.
- There are no transactions, and concurrent requests and lost updates are not modelled. Each call runs alone.
- PhpCoercion.FloatVal: prices and JSON numbers are exact reals. IEEE double rounding is not modelled, and neither is the float conversion of the answered total.
- PhpCoercion.StrToInt: exponent notation is not read. The model reads "1e3" as 1 and "12.5e3" as 12, where PHP reads 1000 and 12500. Hexadecimal text reads as 0, as in PHP. PHP reads text with a fraction, or an integer too long for 64 bits, through a double rounded to nearest before it truncates; the model reads the exact integer part. The rounding can change the integer part at any size: PHP reads "0.99999999999999999999" as 1 and "9007199254740991.5" as 9007199254740992, the model as 0 and 9007199254740991. `DecimalPrefixIntVal` therefore says nothing about text followed by a fraction.
- PhpCoercion.StrToFloat: exponent notation is not read either. The model reads "12e3" as 12.0, where PHP's `floatval` gives 12000.0. `DecimalPrefixIntVal` and `DecimalPrefixFloatVal` therefore say nothing about text that goes on with an exponent.
- PhpCoercion.IntVal: a JSON float outside the 64-bit range is truncated without PHP's out-of-range conversion.
- JSON arrays and objects as field values are not modelled (only scalars are). For a type given as a number or boolean, the model goes straight to "unknown" without the string conversion `strtolower` performs. That conversion yields digits, "1" or "", never "buy" or "sell".
- `NOW()` and `CURDATE()` are opaque values passed in.
- `PortfolioValue.QuantitySum` is a ghost function: it picks rows in an arbitrary order. `QuantitySumRemove` shows the order does not matter. SQL integer overflow of the sum is not modelled.
- The Node backend, the React front end and the single-statement CRUD scripts are not part of this model. They are presentation, network I/O, or one SQL statement over a schema the model cannot see.
