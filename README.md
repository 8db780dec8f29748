# Order lookup by date — verified model

This project models the command-line order lookup of `shipping.js`. The utility validates a
`YYYY-MM-DD` date and takes an optional status. It checks the loaded dataset's shape and
selects the orders of that date (and status). It checks each selected order's customer and
items and writes each order's total value into the order record. Any problem aborts the
whole run.

Modules:

- `Wrappers` (`wrappers.dfy`): the `Option` type, used for JSON properties that may be absent.
- `FailFast` (`fail_fast.dfy`): the fail-fast scan shared by every validation stage.
  `CleanPrefix` is how many leading elements pass a check. `FirstFault` is the failure of
  the earliest element that does not.
- `Dates` (`dates.dfy`): `validateDate` and `getDate`.
- `Padding` (`padding.dfy`): `reserveCharacter`, with its counting loop.
- `Orders` and `OrderFacts` (`orders.dfy`): the parsed dataset and the pipeline's checks as
  functions, with lemmas about the filter and the totals.
  - `Order` is a class. The five properties the pipeline reads are constants. The added
    `totalOrderValue` is a mutable field.
  - Items, customers and the dataset are datatypes.
- `Pipeline` (`pipeline.dfy`): `getOrdersByDate` as methods.
  - `SelectOrders` is the required-property loop with the filter. `IsSelected` is its
    filter test.
  - `ScreenDataset` is everything before the totals: the date, the two collections, an
    empty `orders`, the scan and an empty match.
  - `ItemsTotal` is the item loop.
  - `EnrichOrders` is the customer-and-items loop that writes totals in place.
  - `GetOrdersByDate` is the whole run. It is proved equal to the specification function
    `Run`, and its effect on the order records is stated through `Enriched`.
- `PipelineFacts` (`pipeline_facts.dfy`): what a run promises, as lemmas about `Run` and
  `Enriched`.

A run ends in one `Outcome`. There is one variant per diagnostic message, and the
missing-property message carries the property's name. The two benign empty results are
`NoOrders` and `NoMatch`. `Found` carries the list handed to the table.

Two features of the control flow matter for what is proved:

- Only matched orders' `customerId`s are checked, and only after the filter
  (shipping.js:162-172). Unmatched orders with unknown customers are never reported.
- The required-property check and the filter share one loop (shipping.js:106-148). Matches
  found before an incomplete order are discarded.

## Model

| member | source | states |
|---|---|---|
| `FailFast.CleanPrefix` | shipping.js:106-132 | a fail-fast scan stops at the first element that fails its check: every earlier element passes, and the one it stops at fails |
| `FailFast.FirstFault` | shipping.js:164-200 | the failure reported is the earliest failing element's, and there is none exactly when every element passes |
| `Dates.ValidateDate` | shipping.js:17-40 | a date is accepted iff it has the shape four digits, `-`, two digits, `-`, two digits, a month in 1..12 and a day from 1 to that month's length under the no-leap-year rule (an independent calendar rule, not the 12-entry table) |
| `Dates.AcceptedExample` | shipping.js:24-39 | 2023-02-28 is accepted |
| `Dates.RefusedCalendarExamples` | shipping.js:24-39 | 2024-02-29, 2023-04-31, month 13, month 0 and day 0 are refused |
| `Dates.RefusedShapeExamples` | shipping.js:18-23 | `not-a-date` and a one-digit month are refused |
| `Dates.GetDate` | shipping.js:43-45 | the date part is a prefix of the order date of length min(length, 10) |
| `Dates.MatchesDateIffPrefix` | shipping.js:138 | for an accepted date, an order date matches it iff the order date begins with it |
| `Padding.ReserveCharacter` | shipping.js:48-54 | the result is the string followed only by spaces, of length max(length of string, requested width); a string at least as wide is returned unchanged |
| `OrderFacts.MissingFieldFirstAbsent` | shipping.js:108-132 | the property reported for an order is the first absent one in the order orderId, customerId, orderDate, status, items; none is reported iff all are present |
| `Orders.Filter` | shipping.js:134-147 | the matches are no more than the orders, and every match is an order of the list that meets the date and status condition |
| `Orders.Screen` | shipping.js:106-153 | the scan selects iff every order has every required property; otherwise it reports the earliest incomplete order's first missing property; selected orders come from the list, match and are complete |
| `Orders.ItemFault` | shipping.js:174-193 | an item passes iff quantity and price are both present and numeric; otherwise the fault is the first violated check, in the order quantity present, price present, quantity numeric, price numeric |
| `Orders.Sum` | shipping.js:165-196 | the running total of items whose quantity × price are all non-negative is non-negative |
| `Orders.CustomerIds` | shipping.js:162-168 | an identifier is known, in the sense the `includes` test uses, iff some customer has that `customerId`; an absent property counts as an absent identifier |
| `Orders.OrderFault` | shipping.js:168-193 | a matched order passes iff its customer is among the known identifiers and all its items pass; an unknown customer is reported before any item is looked at, otherwise the first item fault is reported |
| `OrderFacts.FilterConcat` | shipping.js:134-147 | the filter distributes over concatenation, so matches keep their dataset order |
| `OrderFacts.FilterSnoc` | shipping.js:138-146 | scanning one more order appends it to the matches exactly when it matches |
| `OrderFacts.FilterStep` | shipping.js:106-147 | one more iteration of the scan appends the next order to the matches exactly when it matches |
| `OrderFacts.FilterMembers` | shipping.js:134-147 | an order is selected iff it is in the dataset, its date part equals the date and, unless the status is absent or empty, its status equals the status exactly |
| `OrderFacts.FilterExample` | shipping.js:134-147 | orders dated 2024-01-01T00:00:00 (status A) and 2024-01-01 (status B): with no or empty status both are selected in order, with status B only the second, with another date none |
| `OrderFacts.SumConcat` | shipping.js:165-196 | totals add up over concatenated item lists |
| `OrderFacts.SumFromFront` | shipping.js:165-196 | the running total equals the first item's quantity × price plus the total of the rest |
| `OrderFacts.SumExample` | shipping.js:196 | items 2 × 3 and 1 × 5 total 11 |
| `Pipeline.Run` | shipping.js:81-210 | a successful run has an accepted date, both collections, and a non-empty result whose orders come from the dataset and match the query |
| `Pipeline.Enriched` | shipping.js:164-204 | only a run with an accepted date and both collections totals anything, and it totals at most as many orders as the dataset has |
| `Pipeline.IsSelected` | shipping.js:134-147 | the filter test of the loop, with its two branches on the status, is exactly the match condition |
| `Pipeline.SelectOrders` | shipping.js:104-153 | the first loop yields the earliest order's first missing property, or else exactly the filtered orders |
| `Pipeline.ScreenDataset` | shipping.js:84-159 | the checks before the totals either stop the run with `Run`'s outcome and no totals, or hand on the non-empty filtered list, all of it from the dataset and with items |
| `Pipeline.ItemsTotal` | shipping.js:165-197 | the item loop yields the first item fault, or else the sum of quantity × price (0 for no items) |
| `Pipeline.EnrichOrders` | shipping.js:162-208 | the second loop reports the first faulty matched order's fault; exactly the matched orders before that one have `totalOrderValue` set to their item total, and the rest keep their previous value |
| `Pipeline.GetOrdersByDate` | shipping.js:81-211 | the run ends in the outcome `Run` describes; every order's `totalOrderValue` is its item total if it is in `Enriched` and is unchanged otherwise; on success every returned order carries its item total |
| `PipelineFacts.EarlyExitOrder` | shipping.js:84-103 | an invalid date is reported before the dataset is looked at, a missing `orders` before a missing `customers`, then empty `orders`; none of these totals anything |
| `PipelineFacts.RunAfterLoading` | shipping.js:104-210 | past the top-level checks, the outcome is the first missing property, else "no match", else the first faulty matched order's fault, else the filtered list; the totalled orders are the filtered list up to the first faulty order |
| `PipelineFacts.MissingFieldReported` | shipping.js:106-153 | a missing property is reported iff some order lacks one; the report is the first missing property of the earliest such order, whatever the filter says about it or earlier orders; nothing is totalled |
| `PipelineFacts.SecondOrderWithoutItems` | shipping.js:106-153 | a first order that is complete and matches, then a second without `items`, gives the missing-`items` report and no totals |
| `PipelineFacts.NoMatchReported` | shipping.js:155-159 | "no matched order" is reported iff every order is complete and none matches, so an empty list is never a success; nothing is totalled |
| `PipelineFacts.SuccessCharacterized` | shipping.js:134-210 | a run succeeds iff all orders are complete, some order matches and every matched order has a known customer and sound items; the result is exactly the filtered list and every order in it was totalled |
| `PipelineFacts.EnrichedSound` | shipping.js:164-204 | every order that receives a total is in the dataset, matches the query, has the `customerId` of some customer and only numeric quantities and prices |
| `PipelineFacts.AbortCharacterized` | shipping.js:162-208 | a run aborts with a customer or item fault iff all orders are complete and some matched order has that fault while every matched order before it is sound |
| `PipelineFacts.AbortHasFault` | shipping.js:162-208 | on such an abort the first faulty matched order sits right after the totalled ones, which are the matched orders before it |
| `PipelineFacts.AbortEnrichesPrefix` | shipping.js:164-204 | on such an abort the faulty matched order is not among the totalled ones, so the run leaves its `totalOrderValue` as it was |
| `PipelineFacts.ResultOrdersSound` | shipping.js:134-197 | every returned order is in the dataset, matches the query, has the `customerId` of some customer and has only numeric quantities and prices |

## Left out

- Reading `db.json` (shipping.js:11-14, 90): the parsed dataset is a parameter. A missing file or invalid JSON is not modelled.
- The terminal prompts (shipping.js:5-8, 213-229) and the async plumbing: the date and status are parameters. A missing or empty status means any status.
- `displayOrdersTable` and the `print...Error` helpers (shipping.js:57-78): each message is an `Outcome` variant. The table rendering is not modelled. `reserveCharacter` is modelled on its own.
- Padding.ReserveCharacter: takes a string. The source's `str + ''` also turns numbers into text, and that conversion is not modelled. Lengths count characters, not UTF-16 code units, so text outside the Basic Multilingual Plane is padded differently.
- Dates.GetDate: takes the first ten characters, not ten UTF-16 code units. In a run the result is only compared with an accepted date, which is ten ASCII characters, so the outcome is the same.
- Floating-point arithmetic (shipping.js:196): quantities, prices and totals are exact reals, with no rounding.
- JavaScript coercions are abstracted:
  - `isNaN` also accepts numeric strings, `null` and booleans; an item value is simply numeric or not.
  - `hasOwnProperty` is modelled as an optional property.
  - `parseInt` is the value of the two digits.
  - `split("-")` is modelled as the fixed positions of the month and day. These are the same once the pattern has matched.
  - `includes` is plain equality on identifiers, which may be strings or numbers. SameValueZero on NaN and -0 is not modelled.
- JSON values of unexpected type are not modelled:
  - a `null` identifier;
  - a non-string `orderDate`, on which `substring` would throw;
  - non-array `orders`, `customers` or `items`.
- Order properties other than `totalOrderValue` are constants: the pipeline never writes them.
- Pipeline.SelectOrders: makes the five required-property checks through `MissingField`, the function that states them in order, rather than as five statements in the loop body.
- Orders.OrderFault: for an order without `items` it reports `MissingQuantity`. The source would throw there, but a matched order always has `items`, so this case never arises in a run.
