# Tax position service: a Dafny model

This project models the core of a small tax service. The service records sales
invoices, tax payments and retroactive amendments to sale line items. It then
answers the question "what is the net tax position?" by folding those records
into one rounded total.

The model covers three parts:

- **The tax-position calculator** (`TaxCalculatorService.calculate`).
  - It indexes the amendments as invoiceId → itemId → amendment. A later
    amendment for the same key overwrites an earlier one.
  - It folds the transactions into a running total. Each sale item adds
    `cost * taxRate`, using the amendment's pair when one is indexed for the
    item. Each tax payment subtracts its amount.
  - It aborts on an out-of-range value.
  - It rounds once, at the end, with `Math.round`.

  In Dafny, the imperative method `TaxCalculator.Calculate` keeps the source's
  map and loops. It is proved equal to the specification function
  `TaxCalculator.Calculation`. Lemmas then state the source's properties about
  that function: a closed form, the last-amendment-wins rule, that unmatched
  amendments are inert, and that dates are ignored.
- **Event ingestion** (`TransactionController.ingestTransaction`): the ordered
  presence checks on the JSON body, then the store call. It is modelled as a
  pure function from the body to an `Outcome`: what was passed to the store,
  and the response.
- **Sale amendment** (`SaleController.amendSale`): the presence checks, the
  date-format check and the projection onto the five amendment fields, then
  the store call.

Modules:

- `Results`: Option and Result.
- `TaxTypes`: items, transactions, amendments and calculation errors.
- `AmendmentIndex`: the index, and `LastAmendment`, an independent reference
  for "the last amendment in input order".
- `TaxCalculator`: the calculator.
- `JsValues`: JSON values, JavaScript truthiness and HTTP outcomes.
- `TransactionController` and `SaleController`: the two handlers.

Modelling decisions:

- Costs, tax rates and amounts are exact `real`s. The service uses JavaScript
  numbers, and its own tests use a cost of `0.01`.
- `Math.round` is `Floor(x + 0.5)`, which rounds halves toward +∞.
- The range check reads the item's **original** cost and tax rate before the
  amendment lookup (`src/services/TaxCalculatorService.ts:23`). So an amended
  item whose original values are out of range still aborts the calculation.
  The amended values that actually enter the total are never checked.
- At ingestion of a sale, the only check on `items` is `!items`
  (`src/controllers/TransactionController.ts:17-19`). An empty array is truthy
  in JavaScript, so a sale with no items passes and is stored.
- A request body of `null` or `undefined` makes the handler's first property
  read throw a TypeError. The handler's `catch` then answers 500 "Internal
  server error" (`src/controllers/TransactionController.ts:39-42`,
  `src/controllers/SaleController.ts:43-46`), and the model does the same.

## Model

| member | source | states |
|---|---|---|
| AmendmentIndex.Insert | src/services/TaxCalculatorService.ts:11-15 | after indexing amendment `a`, the lookup of `a`'s own (invoiceId, itemId) yields `a`, and every other key's lookup is unchanged (overwrite, inner map created on demand) |
| AmendmentIndex.BuildIndex | src/services/TaxCalculatorService.ts:8-16 | for every key, the index built from the amendment list yields exactly `LastAmendment`: the last amendment in input order with that key, or none |
| AmendmentIndex.LastIndex | src/services/TaxCalculatorService.ts:10-16 | the position returned targets the key, and no later position does; -1 means no amendment in the list targets the key |
| AmendmentIndex.LatestWins | src/services/TaxCalculatorService.ts:15 | an amendment appended after all others is the one indexed for its key, whatever came before |
| AmendmentIndex.OtherKeyInert | src/services/TaxCalculatorService.ts:15 | inserting an amendment for a different key anywhere in the list leaves the effective amendment of every other key unchanged |
| AmendmentIndex.DateIgnored | src/services/TaxCalculatorService.ts:10-16 | changing one amendment's date changes neither which key has an effective amendment nor any effective amendment apart from that date |
| AmendmentIndex.LatestByDate | src/models/AmendmentModel.ts:33-37 | when amendments arrive in ascending date order, as the store returns them, a key has an effective amendment iff some amendment targets it, and that amendment is dated no earlier than any other for the key |
| TaxCalculator.RoundHalfUp | src/services/TaxCalculatorService.ts:42 | the result is the integer within half a unit of the total, with halves going up: `x - 0.5 < r <= x + 0.5` |
| TaxCalculator.IndexAmendments | src/services/TaxCalculatorService.ts:8-16 | the map built by the loop equals `BuildIndex(amendments)` |
| TaxCalculator.Calculate | src/services/TaxCalculatorService.ts:4-43 | the method with the nested loops, the running total and the early throws returns exactly `Calculation(transactions, amendments)`: the rounded total, or the error it throws |
| TaxCalculator.ApplyItemsClosedForm | src/services/TaxCalculatorService.ts:22-33 | one sale's items either fail with the first item whose original values are out of range, or add the sum of their item taxes |
| TaxCalculator.ApplyAllClosedForm | src/services/TaxCalculatorService.ts:18-40 | from any starting total, the fold either fails with the first violation in input order or yields start + Σ item taxes − Σ payments |
| TaxCalculator.CalculationClosedForm | src/services/TaxCalculatorService.ts:18-42 | a calculation fails exactly with the first out-of-range item (by its itemId) or negative payment; otherwise it returns Σ item taxes (amended where indexed) − Σ payments, rounded once over the grand total |
| TaxCalculator.EmptyTransactions | src/services/TaxCalculatorService.ts:18-42 | with no transactions the result is `Ok(0)`, for every amendment list |
| TaxCalculator.NoOverrideOwnItemsTax | src/services/TaxCalculatorService.ts:30-32 | with an empty index every item of a sale contributes its own cost * taxRate |
| TaxCalculator.NoOverrideOwnSalesTax | src/services/TaxCalculatorService.ts:20-33 | with an empty index the sales tax of all transactions is Σ own cost * taxRate |
| TaxCalculator.NoAmendments | src/services/TaxCalculatorService.ts:18-42 | with no amendments and all values in range, the result is `RoundHalfUp(Σ items cost*taxRate − Σ payments amount)` |
| TaxCalculator.ErrorsIgnoreAmendments | src/services/TaxCalculatorService.ts:23-25 | whether a calculation fails, and with which error, is the same for every amendment list: an amended out-of-range item still fails, and amendment values are never checked |
| TaxCalculator.ApplyItemsAgree | src/services/TaxCalculatorService.ts:26-32 | one sale's fold reads the index only through the (cost, taxRate) it supplies for that sale's own keys |
| TaxCalculator.ApplyAllAgree | src/services/TaxCalculatorService.ts:20-40 | two indexes that supply the same (cost, taxRate) at every key the sales mention give the same fold result |
| TaxCalculator.UnmatchedAmendmentInert | src/services/TaxCalculatorService.ts:26-27 | an amendment whose (invoiceId, itemId) matches no sale item leaves the result unchanged, wherever it stands in the list |
| TaxCalculator.AmendmentDateIgnored | src/services/TaxCalculatorService.ts:10-16 | changing an amendment's date leaves the result unchanged |
| TaxCalculator.ApplyAllUndated | src/services/TaxCalculatorService.ts:20-40 | two transaction lists equal apart from dates fold to the same result |
| TaxCalculator.TransactionDatesIgnored | src/services/TaxCalculatorService.ts:20-40 | transaction dates are never consulted, so amendments apply whatever the date of the sale |
| TaxCalculator.AmendedItemTax | src/services/TaxCalculatorService.ts:26-32 | an item with an effective amendment contributes exactly that amendment's cost * taxRate, with no blend; an item without one contributes its own cost * taxRate |
| TaxCalculator.OwnValueExamples | tests/services/TaxCalculatorService.test.ts:6-173 | the service's examples without amendments: 100 * 0.2 gives 20, and 0.01 * 0.2 = 0.002 rounds to 0 |
| TaxCalculator.AmendedExamples | tests/services/TaxCalculatorService.test.ts:58-111 | the service's amendment examples: 150 * 0.15 = 22.5 rounds to 23, and of two amendments for one item the later one (200 * 0.1 = 20) decides |
| TaxCalculator.MixedAmendmentExamples | tests/services/TaxCalculatorService.test.ts:113-138 | the service's examples with several items: only the amended item changes (27.5 rounds to 28), and an amendment dated between two sales still applies to the earlier sale (62.5 rounds to 63, test lines 252-279) |
| TaxCalculator.ErrorExamples | tests/services/TaxCalculatorService.test.ts:191-248 | a negative payment fails with the payment error; an item with a negative original cost fails with "ITEM1", and it still fails when an amendment (added beyond the service's own example) gives it valid values |
| JsValues.StoreAndRespond | src/controllers/TransactionController.ts:35-42 | the store receives the payload; the response is 202 iff the store succeeds, and otherwise 500 "Internal server error" |
| TransactionController.IngestTransaction | src/controllers/TransactionController.ts:7-43 | a null or undefined body throws on the first read and gets 500 "Internal server error" without storing. Otherwise the store is called, with the body unchanged, iff the body is `Acceptable`. The response is then 202 iff the store succeeds, 500 "Internal server error" iff it throws, and 400 with one of the three messages when the body is not acceptable |
| TransactionController.MissingHeaderFirst | src/controllers/TransactionController.ts:11-15 | for a readable body, a falsy eventType or date gives 400 "Invalid transaction payload" without storing, before any type-specific check |
| TransactionController.SalesPresence | src/controllers/TransactionController.ts:17-24 | a SALES body is rejected with "Invalid sales event payload" iff its invoiceId or items is falsy; an empty items array is stored |
| TransactionController.PaymentPresence | src/controllers/TransactionController.ts:26-33 | a TAX_PAYMENT body is kept from the store iff amount is undefined, which gives 400 "Invalid tax payment event payload"; zero, negative and null amounts are stored |
| TransactionController.OtherEventTypeStored | src/controllers/TransactionController.ts:17-35 | an eventType other than SALES or TAX_PAYMENT reaches the store once eventType and date are truthy |
| SaleController.Project | src/controllers/SaleController.ts:31-37 | the built object has exactly the keys date, invoiceId, itemId, cost and taxRate, each equal to the body's field |
| SaleController.AmendSale | src/controllers/SaleController.ts:7-47 | a null or undefined body throws on the first read and gets 500 "Internal server error" without storing. Otherwise the store is called, with the projection, iff the presence check passes and the date parses. An incomplete body gives 400 "Invalid amendment payload" whatever the date parser says. A complete body with an unparsable date gives 400 "Invalid date format. Must be ISO 8601". Otherwise 202 on store success, or 500 "Internal server error" |
| SaleController.StoredAmendmentShape | src/controllers/SaleController.ts:31-39 | the stored amendment holds exactly the five fields, copied unchanged and none undefined; extra body fields are dropped |
| SaleController.NumbersNotChecked | src/controllers/SaleController.ts:11-17 | replacing a defined cost and taxRate by any other defined values, such as a negative cost or a rate above 1, changes neither the response nor whether the amendment is stored |

## Left out

- Persistence (`src/models/TransactionModel.ts`, `src/models/AmendmentModel.ts`, `src/config/initDatabase.ts`): SQL inserts and range queries through a connection pool. The store call is the `storeSucceeds` parameter. The date filter and the ascending date order are the caller's, stated as a hypothesis only in `AmendmentIndex.LatestByDate`.
- `TaxPositionController.getTaxPosition` (`src/controllers/TaxPositionController.ts`) is not modelled. Its HTTP mapping does three things:
  - It validates the `date` query parameter. A falsy date gets 400 "Date parameter is required" (lines 11-15), and a date `Date.parse` rejects gets 400 "Invalid date format. Must be ISO 8601" (lines 17-23).
  - It reads both tables through the unmodelled `getBeforeDate` queries (lines 25-26).
  - It answers every throw from `calculate` with the same 500 "Internal server error" (lines 42-45). So a caller cannot tell `InvalidItem` from `InvalidPayment`, nor either of them from a database failure. The model keeps these apart only at the level of `TaxCalculator.Calculate`.
- `src/controllers/TestDataController.ts`, `src/router.ts`, `src/app.ts`: seed data and Express wiring.
- Logging (`src/utils/logger.ts` and every `logger` call): side effects only.
- `Date.parse`: ISO-8601 parsing is not interpreted. `SaleController.AmendSale` takes it as the predicate `dateParses` and assumes it never throws. In JavaScript it first converts its argument to a string, and that conversion throws a TypeError for a `date` object with its own `toString` key, such as `{"toString": 1}` (or an array holding one). The catch then answers 500 (`src/controllers/SaleController.ts:23`, lines 43-46), where the model answers 400 "Invalid date format" or stores.
- IEEE-754 arithmetic: `cost * taxRate` and the running sum are exact reals. Floating-point rounding artefacts are not reproduced. Neither is signed zero: for a total in (−0.5, 0), `Math.round` returns −0, where `TaxCalculator.RoundHalfUp` returns 0. `JSON.stringify` prints both as `0`, so no HTTP response differs.
- Event types other than SALES and TAX_PAYMENT in the calculator: the `Transaction` type admits only the two, and `TransactionModel.store` inserts nothing for any other type. The calculator's silent skip of such events is therefore not modelled.
- Request bodies are JSON values plus `undefined`.
  - Every object `JSON.parse` builds inherits the properties of `Object.prototype`, and arrays and strings inherit theirs. `JsValues.Field` ignores inherited properties. That is exact for the handlers because none of the eight keys they read is an inherited property of an object, array or string. The eight keys are `eventType`, `date`, `invoiceId`, `items`, `amount`, `itemId`, `cost` and `taxRate`.
  - JSON has no NaN, but `JSON.parse` turns an overflowing literal such as `1e400` into ±Infinity, which `Num(n: real)` cannot hold. Both handlers only test a number's truthiness or compare it with `undefined`. ±Infinity is truthy and defined, so it behaves in their checks like any non-zero number, and no handler outcome differs.
- TaxTypes.Item, TaxTypes.Transaction: the calculator is modelled on well-typed records only: costs, tax rates and amounts are numbers, and `items` is an array of items. The ingestion handler stores bodies that break this: a `null` amount, `items` that is a string or an object, items without a cost or tax rate, or a numeric `invoiceId` or `itemId` (truthy, so both handlers accept it). `TransactionModel.getBeforeDate` hands them back unchanged (`src/models/TransactionModel.ts:50`). JavaScript then behaves as follows, and the model does not capture it. A `null` amount passes the `< 0` check and subtracts 0. An item with a missing cost or tax rate passes line 23, because `undefined < 0` and `undefined > 1` are both false. Without an amendment indexed for the item, it makes the total NaN, and `Math.round` returns NaN. With one, lines 26-29 add the amendment's values, which come back as numbers from the `INTEGER` and `REAL` columns (`src/config/initDatabase.ts:40-41`, `src/models/AmendmentModel.ts:43-44`), so the total stays a number. A non-iterable `items` throws at line 22. A numeric id is stored in two different forms:
  - An amendment's ids come back as strings, because their columns are `VARCHAR` (`src/config/initDatabase.ts:38-39`, `src/models/AmendmentModel.ts:41-42`).
  - A sale's JSONB `data` keeps the number (written at `src/models/TransactionModel.ts:19`, read at line 50).
  - So the `Map` lookups at `src/services/TaxCalculatorService.ts:26-27` miss `"123"` for `123`, and the amendment is silently ignored. `TaxTypes` holds ids as strings and cannot express this.
