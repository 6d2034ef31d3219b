# Inventory backend: a verified model of its core

This project models, in Dafny, the core of a Django back end for supermarket
inventory, order fulfilment and stock reservation, and proves properties of
that model. The modelled parts are:

- **Stock reservation** (`orders`). The per-warehouse stock counters and
  their movement log. Reserving, releasing and fulfilling stock for an
  order as the code evidently intends them, both as functions over the
  ledger and as the `StockService` methods proved against them. As written
  none of the three ever takes effect: each fails on the order model and
  rolls back, which the Findings table records. Bundles, whose components are reserved in
  turn and released again when one of them fails. SKU resolution. The
  automation rules run when an order is placed. Greedy reservation across
  warehouses. The channel order import, the webhook receivers and the
  default-warehouse rule. The order serializers' validation.
- **Inventory** (`inventory`). The quantity and expiry arithmetic of
  products, stock alerts, the list filters and the field validators.
- **Spreadsheet import** (`file_processing`). Column lookup, cell
  cleaning and row validation. The pass over an upload session, and the
  cancel, retry and statistics views. The importer that turns extracted
  rows into products, and the batch import job.
- **Text recognition rules**: the text rules applied to recognised lines,
  not the recognition itself.
- **Reminders** (`notifications`). Creating, running, rescheduling,
  cancelling, updating and cleaning up reminders; the admin bulk actions;
  the reminder serializers' validators. A run is modelled as the task
  queue would perform it if the queued function path resolved, which as
  written it does not (see Left out).
- **Purchasing**: purchase order totals, receipt, statistics and the best
  supplier.
- **Accounts**: the user manager, subscription expiry and token expiry.
- **Backfill**: the script that gives every user without a supermarket a
  supermarket.
- **POS sync jobs** (`pos_integration`): the sync job and the scheduler
  that queues automatic syncs.

Some conventions hold throughout:

- Money is a whole number of cents.
- Times are whole seconds, or whole days where the source counts days.
- Identifiers are natural numbers.
- The database is a map from ids to records, or a class whose fields the
  operations reassign.
- Clocks, randomness, parsed dates and the results of outside services
  are parameters.

Where the project's design notes and its code disagree, the model follows
the code:

- Automation rules are applied in ascending priority, as the query orders
  them.
- Fulfilling a reservation removes the units from reserved without moving
  them to allocated, and deletes the reservation.
- Releasing a reservation deletes it rather than marking it cancelled.
- A warehouse given with a reservation is used whatever its stock; the
  default is consulted only when none is given.
- Optional bundle components are reserved like any other component.
- Channel imports record a per-order error instead of rolling back the
  whole batch.
- Applied rules are not recorded on the order.
- There is no sweep that expires stale reservations.
- The channel sync reports write no sync log.
- Cell cleaning can raise on an infinite quantity
  (`FileRows.InfiniteQuantity`); it is not true that it never raises.

## Model

| member | source | states |
|---|---|---|
| StockLedger.ShiftLevel | orders/services.py:384-385 | moving `q` units from available to reserved lowers available by `q`, keeps available + reserved and the total, and touches no other counter |
| StockLedger.ResolveWarehouse | orders/services.py:350-354 | the warehouse given wins; without one, the supermarket's first default warehouse, or none |
| StockLedger.ReserveIn | orders/services.py:360-403 | a reservation is made iff 0 <= quantity <= available of the (possibly new, zeroed) counter record; on refusal only the get_or_create record may appear; on success the next id gets an ACTIVE reservation of that product, warehouse, order and quantity expiring 24 h after now, the record is shifted by the quantity with available still >= 0, and a RESERVATION movement with previous = new + quantity is logged |
| StockLedger.Reserve | orders/services.py:347-358 | with no warehouse given and no default warehouse nothing changes and no reservation is returned; any reservation made is in the resolved warehouse |
| StockLedger.ReserveInAsWritten | orders/services.py:360-403 | as written the reservation create fails, so no reservation is returned and no reservation or movement is stored; the get_or_create record is kept only on the insufficient-stock path, and a call with enough stock leaves the ledger as it was |
| StockLedger.ReserveAsWrittenNeverReserves | orders/services.py:373-403 | wherever the intended reserve makes a reservation (exactly when 0 <= quantity <= available), the code as written rolls back to the starting ledger; where the intended one refuses, the two agree |
| StockLedger.Release | orders/services.py:406-435 | a missing reservation, or one whose counter record is missing, leaves the ledger exactly as it was; otherwise the reservation is deleted, its record gets the quantity back in available and loses it from reserved, one movement is logged, and every other record keeps its value; no record appears or vanishes |
| StockLedger.ReleaseFound | orders/services.py:410-432 | with the reservation and its record present, release shifts the record back by the reservation's quantity, deletes the reservation and logs one RELEASE movement |
| StockLedger.NullReservation | orders/services.py:472 | deleting a reservation nulls every item reference to it and changes nothing else on the items |
| StockLedger.NullReservationUnlinked | orders/services.py:472 | deleting a reservation no item references leaves the items as they were |
| StockLedger.Fulfill | orders/services.py:438-475 | fulfilling keeps the item list's length (the effect is stated by FulfillEffect) |
| StockLedger.FulfillEffect | orders/services.py:440-472 | an item without reservation changes nothing; otherwise either nothing changes (missing record) or the item is FULFILLED, its reservation deleted, the record's reserved count and total drop by the reserved quantity, and every record's available count is unchanged |
| StockLedger.FulfillIdempotent | orders/services.py:440-442 | fulfilling the same item twice does no more than once: the second call finds no reservation |
| StockLedger.ReserveThenReleaseRestores | orders/services.py:363-432 | releasing the reservation just made restores every counter (the get_or_create record stays at its old or zero value) and the reservation table, with two movements logged |
| StockLedger.ReserveKeepsValid | orders/services.py:360-403 | reserving keeps the references valid (ids below the counter, records present, item references live) and keeps the ledger balanced: no negative available count or reservation quantity, and each record's reserved count equal to the sum of its live reservations |
| StockLedger.ReleaseKeepsValid | orders/services.py:406-435 | releasing, with the references to the deleted reservation nulled, keeps the references valid and the ledger balanced in the same sense |
| StockLedger.FulfillKeepsValid | orders/services.py:438-475 | fulfilling keeps the references valid and the ledger balanced in the same sense |
| StockLedger.BalancedReservedNonNegative | orders/enhanced_models.py:102-139 | in a balanced ledger no record has a negative reserved count |
| StockLedger.ReservedBelowRemove | orders/services.py:432 | deleting a reservation takes exactly what it held off its own record's reserved sum and nothing off any other record |
| StockLedger.ReservedBelowAdd | orders/services.py:376-382 | a reservation added under the next id adds its quantity to its own record's sum and nothing to any other |
| StockLedger.ReserveKeepsBalanced | orders/services.py:363-391 | the get_or_create, the stock check, the create and the counter shift together keep the ledger balanced |
| StockLedger.GrantKeepsBalanced | orders/services.py:376-391 | a new reservation whose quantity is moved from available to reserved on its own record keeps the ledger balanced |
| StockLedger.ShiftedBack | orders/services.py:283-291 | once every recorded move is cancelled by an opposite one, every record is back at its starting value and any record created on the way is a zero record |
| StockLedger.ReserveKeepsShifted | orders/services.py:384-385 | a reserve call adds one move of its quantity on its record when it succeeds and none when it fails |
| StockLedger.ReleaseKeepsShifted | orders/services.py:416-417 | a release adds one move of minus the reservation's quantity on its record |
| StockLedger.ReleaseAsWritten | orders/services.py:406-435 | release_reservation as written leaves the ledger exactly as it was: the movement's `reservation.order.order_number` raises AttributeError, the atomic block rolls the counter update back and the error is swallowed |
| StockLedger.ReleaseAsWrittenReleasesNothing | orders/services.py:419-435 | wherever the intended release deletes the reservation, the code as written keeps it and every counter record |
| StockLedger.FulfillAsWritten | orders/services.py:438-475 | fulfill_order_item as written leaves the ledger and the items as they were, for the same missing `order_number` |
| StockLedger.FulfillAsWrittenFulfillsNothing | orders/services.py:455-475 | wherever the intended fulfil marks the item FULFILLED and frees its reservation, the code as written leaves the item unchanged |
| StockLedger.ReserveLowersSyncTotal | orders/services.py:505-510 | a successful reservation in one of the supermarket's warehouses lowers the channel figure by exactly the quantity; in another supermarket's warehouse it leaves it alone |
| StockLedger.SyncTotalNonNegative | orders/services.py:505-510 | with no negative available count, the figure pushed to a channel is never negative |
| StockLedger.SyncTotal | orders/services.py:505-510 | the figure pushed to a channel: the product's available units summed over the supermarket's warehouses; its properties are SyncTotalNonNegative and ReserveLowersSyncTotal |
| StockLedger.SyncProductToChannel | orders/services.py:502-529 | a figure is pushed iff the product has a SKU mapping on the channel, and it is the sum of available over the channel's supermarket's warehouses |
| StockService.ReserveStock | orders/services.py:347-403 | the ledger after the call is the one Reserve computes from the old ledger, the result is its reservation, and the references stay valid; the balance then follows from ReserveKeepsValid |
| StockService.ReserveAt | orders/services.py:360-403 | the in-place get-or-create, check, create, update and log steps produce exactly ReserveIn's ledger and reservation, keeping the references valid (the balance follows from ReserveKeepsValid) |
| StockService.ReleaseReservation | orders/services.py:406-435 | the ledger becomes Release of the old one; item references to the reservation are nulled only when it was actually deleted; the references stay valid (the balance follows from ReleaseKeepsValid) |
| StockService.FulfillOrderItem | orders/services.py:438-475 | the ledger and items become Fulfill's result; the references stay valid (the balance follows from FulfillKeepsValid) |
| EnhancedModels.MoveToReservedKeepsTotal | orders/enhanced_models.py:129-135 | moving units between available and reserved keeps the total, and lowers sellable by twice the amount moved |
| EnhancedModels.SellableSign | orders/enhanced_models.py:133-135 | sellable = available - reserved is not clamped: for every record it is negative exactly when more is reserved than available and zero exactly when they are equal (one available and three reserved give -2) |
| EnhancedModels.SaveItem | orders/enhanced_models.py:419-422 | the total becomes unit price x quantity when both are non-zero, and is kept otherwise; no other field changes |
| EnhancedModels.GeneratedOrderNumber | orders/enhanced_models.py:359-361 | a generated order number is "ORD-" followed by the digits of the clock in seconds |
| EnhancedModels.SaveOrder | orders/enhanced_models.py:358-367 | an order number and a placed_at already present are kept; empty ones are filled from the clock; nothing else changes and the order number is never empty afterwards |
| EnhancedModels.SaveOrderIdempotent | orders/enhanced_models.py:358-367 | saving a second time, at any clock reading, changes nothing |
| OrderModels.FirstDefaultIndex | orders/services.py:351-354 | the first default warehouse of the supermarket in table order: it is a default of that supermarket and no earlier row is; None exactly when there is none |
| OrderModels.DefaultWarehouse | orders/services.py:351-354 | none exactly when the supermarket has no default warehouse; a warehouse found is a default of that supermarket |
| OrderModels.SaveWarehouse | orders/models.py:43-62 | the write of a warehouse: refused on a duplicate (supermarket, code) pair, otherwise the row is replaced or added and, for a default, every other default of the supermarket is cleared; its properties are SaveKeepsSingleDefault, SaveKeepsWellFormed, SavedDefaultIsFound and SaveNonDefaultTouchesNoOther |
| OrderModels.DefaultWarehouseIsTheDefault | orders/models.py:55-62 | with at most one default per supermarket, the default lookup finds exactly that warehouse whatever the row order |
| OrderModels.SaveKeepsSingleDefault | orders/models.py:55-62 | saving any warehouse keeps at most one default warehouse per supermarket |
| OrderModels.SaveKeepsWellFormed | orders/models.py:43-62 | saving keeps warehouse ids and (supermarket, code) pairs unique; the write is refused exactly when it would duplicate a pair |
| OrderModels.SavedDefaultIsFound | orders/models.py:55-62 | a default warehouse that was saved is the one the default lookup finds for its supermarket |
| OrderModels.SaveNonDefaultTouchesNoOther | orders/models.py:57-62 | saving a warehouse that is not a default replaces its own row in place or puts a new row first, and every other row keeps its value at its (possibly shifted) position |
| OrderModels.LineTotal | orders/models.py:199-203 | total = unit price x quantity whenever both are present; otherwise the stored total stays |
| OrderTables.OrderDatabase.SaveWarehouse | orders/models.py:55-62 | the warehouse table becomes the rows the save computes, `ok` says whether the write happened, and a saved default is the one the lookup finds |
| OrderService.FirstSkuMatch | orders/services.py:317-322 | the first product of the supermarket whose SKU or barcode equals the channel SKU: it matches and no earlier product does; None exactly when none matches |
| OrderService.MapSkuToProduct | orders/services.py:307-324 | an explicit (channel, channel SKU) mapping wins; without one, the first product of the channel's supermarket whose SKU or barcode matches; otherwise None |
| OrderService.FindBundle | orders/services.py:218-221 | a bundle found has the order's supermarket and the line's SKU; None exactly when no bundle has both |
| OrderService.SkuOrBarcode | orders/services.py:245 | an empty or missing SKU falls back to the barcode |
| OrderService.ProcessSingleItem | orders/services.py:229-253 | the stock changes exactly as reserve_stock of the line quantity (default 1) in the channel's default warehouse; the item is RESERVED and linked iff a reservation was returned, BACKORDER otherwise, with SKU, price and quantity defaulted from the product |
| OrderService.ReserveComponents | orders/services.py:262-274 | each component in turn gets a reservation of component quantity x line quantity, stopping at the first failure; the reservations made have consecutive new ids and the net counter moves equal theirs |
| OrderService.ReleaseAcquired | orders/services.py:276-279 | releasing the reservations just made, in order, brings every counter record back to its value before the line (records created on the way stay at zero) and removes exactly those reservations |
| OrderService.ReserveBundle | orders/services.py:256-293 | when a component falls short the counters are restored and the reservation table is as before; otherwise every component holds an active reservation of component quantity x line quantity, with consecutive ids |
| OrderService.ProcessBundleItem | orders/services.py:256-304 | the item names the bundle and no product or reservation; it is BACKORDER with stock and reservations restored when a component falls short, RESERVED with every component reserved otherwise; is_optional is never read |
| OrderService.ProcessOrderItem | orders/services.py:198-226 | an unmapped SKU gives an UNMAPPED item with no stock touched and the source's defaults; a mapped SKU that is also a bundle of the supermarket is handled as a bundle, any other as a single product |
| Automation.EvaluateRuleConditions | orders/services.py:564-582 | a rule holds iff its minimum order value, channel type list and e-mail substring, each when given, are all met; it raises exactly when the first two pass and a substring is asked of an order without e-mail |
| Automation.NoConditionsHold | orders/services.py:564-582 | a rule with no conditions matches every order |
| Automation.DroppingConditionKeepsMatch | orders/services.py:569-582 | the conditions are conjunctive: dropping any one never stops a matching rule from matching |
| Automation.MergeTags | orders/services.py:601-604 | `list(set(current + new))`: every tag of either list, each exactly once |
| Automation.ExecuteRuleActions | orders/services.py:584-606 | the warehouse is assigned only when one with that id exists; the priority is set when given; added tags are merged without duplicates; no other order field changes |
| Automation.ApplicableRulesSelected | orders/services.py:329-333 | the rules applied are exactly the active ORDER_PLACED rules of the order's supermarket, sorted by ascending priority |
| Automation.ApplyEach | orders/services.py:335-340 | the loop result equals applying each selected rule in turn, a rule's actions running only when its conditions hold |
| Automation.ApplyAutomationRules | orders/services.py:327-340 | the order after the call is the selected rules applied in ascending priority |
| Automation.ApplyRulesAsWritten | orders/services.py:334-340 | as written every rule's turn raises AttributeError and is logged, so the order leaves the loop unchanged |
| Automation.AsWrittenIgnoresMatchingRule | orders/services.py:334-340 | a matching rule that sets a new priority changes the order under the intended loop, and changes nothing as written |
| Automation.RulesTouchOnlyActionFields | orders/services.py:584-606 | applying any rules changes only the assigned warehouse, the priority and the tags |
| Automation.NonMatchingRuleSkipped | orders/services.py:335-340 | a rule that fails or raises can be removed from the sequence without changing the outcome: later rules still run |
| Automation.RulesKeepTagsDistinct | orders/services.py:601-604 | tags stay free of duplicates, no tag is lost, and every new tag is one some rule adds |
| OrderViews.CandidatesSelected | orders/enhanced_views.py:340-344 | the candidate levels are exactly those of the product in the supermarket's warehouses with available >= the line quantity, ordered largest available first |
| OrderViews.ReserveForLine | orders/enhanced_views.py:338-368 | a line is left short by 0 or by its full quantity, short exactly when no warehouse holds enough; every counter keeps available + reserved; no movement is logged and at most one reservation is made |
| OrderViews.ReservedAtLargest | orders/enhanced_views.py:344-366 | the reservation a line gets is made at the warehouse with the most available units, and leaves that count >= 0 |
| OrderViews.ReserveForLinesConserves | orders/enhanced_views.py:338-374 | over a whole order every counter keeps available + reserved, no record appears or vanishes, each line gets at most one reservation and a shortage note names one of the order's lines and its full quantity |
| OrderViews.ReserveForLines | orders/enhanced_views.py:338-374 | the per-line reservation over an order (the intended reservation create); ReserveForLinesConserves states what it keeps |
| OrderViews.ReserveLineStock | orders/enhanced_views.py:346-368 | the candidate loop with `min(remaining, available)` leaves the ledger and remaining quantity ReserveForLine gives |
| OrderViews.ReserveStockForOrder | orders/enhanced_views.py:336-374 | each short line puts the order ON_HOLD with a note naming the product and the shortfall (the last one kept); an order with no short line is untouched |
| OrderViews.ImportedItems | orders/enhanced_views.py:296-310 | lines whose SKU has no mapping are dropped; every item kept belongs to the order, names a product and has no reservation |
| OrderViews.NewImportedOrder | orders/enhanced_views.py:280-293 | the new order belongs to the channel's supermarket, carries the external id, is PENDING and gets its order number and placed_at from the clock |
| OrderViews.AddImportedLines | orders/enhanced_views.py:296-310 | the item table grows by exactly the mapped items, numbered from the next id |
| OrderViews.CreateImportedOrder | orders/enhanced_views.py:279-315 | one order row is appended with the channel and external id, its mapped lines are stored and reserve_stock_for_order is run on it |
| OrderViews.ImportOne | orders/enhanced_views.py:269-321 | an order is skipped iff the channel already has its external id; it fails (nothing written, error recorded) iff its generated order number is taken; otherwise it is created |
| OrderViews.ImportOneAsWritten | orders/enhanced_views.py:269-321 | as written an order is skipped iff the channel already has its external id, and otherwise always fails with its id recorded: the order create raises, so nothing is created |
| OrderViews.ImportAllAsWritten | orders/enhanced_views.py:268-326 | one outcome per order of the request |
| OrderViews.ImportAsWrittenImportsNothing | orders/enhanced_views.py:268-333 | as written a request creates no order at all, and every order whose external id is new is reported as an error |
| OrderViews.OutcomesAccounted | orders/enhanced_views.py:268-326 | every order of the request is skipped, created or failed, so imported + errors + skipped equals the request size |
| OrderViews.ImportChannelOrders | orders/enhanced_views.py:254-333 | a channel not owned by the user gives 404 and changes nothing; otherwise imported_count counts the created orders, external ids stay unique per channel, and a request whose orders all exist changes nothing |
| OrderViews.ExternalExistsKept | orders/enhanced_views.py:271-277 | orders are only appended, so an external id present before stays present |
| OrderViews.AllSkipped | orders/enhanced_views.py:323-327 | a request in which every order was skipped reports no imports and no errors |
| OrderViews.UpdateOne | orders/enhanced_views.py:115-155 | each entry adds exactly one result: success iff its id names a record in one of the user's warehouses, with the given available and damaged counts stored and an ADJUSTMENT movement logged; not-found and missing-id errors change nothing |
| OrderViews.UpdateOneAsWritten | orders/enhanced_views.py:115-155 | as written an entry naming one of the user's records is rejected by the movement create; every entry adds one non-success result and no count or movement is stored |
| OrderViews.UpdateAsWrittenStoresNothing | orders/enhanced_views.py:109-157 | as written a whole request stores no count and no movement and reports no success |
| OrderViews.UpdateAllShape | orders/enhanced_views.py:114-157 | one result per entry in order; no record appears or vanishes; reserved, allocated and on-order counts never change |
| OrderViews.UpdateAllAsWritten | orders/enhanced_views.py:114-157 | as written the loop over the entries stores no count and no movement and adds one result per entry; UpdateAsWrittenStoresNothing states that none is a success |
| OrderViews.UpdateAll | orders/enhanced_views.py:114-157 | the per-entry fold of the intended update; UpdateAllShape, UpdateResultAt and UpdateLeavesOthers state it |
| OrderViews.UpdateResultAt | orders/enhanced_views.py:114-155 | the j-th result is decided by the j-th entry alone, so a failing entry does not stop the later ones |
| OrderViews.UpdateLeavesOthers | orders/enhanced_views.py:114-155 | a record no entry names keeps all its counts |
| OrderViews.UpdateStockLevels | orders/enhanced_views.py:109-157 | the loop leaves the records, movements and results the per-entry fold gives |
| Webhooks.VerifySignature | orders/webhooks.py:64-79 | with no webhook secret every payload is accepted; with one, acceptance is exactly the signature match |
| Webhooks.ShopifyRoute | orders/webhooks.py:44-53 | each topic goes to its handler: orders/cancelled to cancel, orders/updated to update; an unrecognised topic to none |
| Webhooks.WooRoute | orders/webhooks.py:263-270 | order.deleted is handled as a cancellation, order.updated as an update; any other event but order.created goes to no handler |
| Webhooks.ApplyUpdate | orders/webhooks.py:97-103 | only the order status and fulfilment status can change; Shopify never changes the status and an unknown fulfilment value changes nothing; WooCommerce changes one of the two and an unknown status changes nothing |
| Webhooks.ApplyUpdateTargets | orders/webhooks.py:97-103 | fulfilled and completed give FULFILLED, partial gives PARTIAL, processing gives PROCESSING, cancelled gives CANCELLED and leaves the fulfilment status |
| Webhooks.ApplyUpdateIdempotent | orders/webhooks.py:89-107 | replaying an update webhook (with its save) changes nothing more |
| Webhooks.FindExternal | orders/webhooks.py:93-95 | the first order of the channel with that external id; None exactly when there is none |
| Webhooks.OrderReservations | orders/webhooks.py:120-122 | exactly the reservations held by the order's items |
| Webhooks.ReleaseEachConserves | orders/webhooks.py:120-122 | releasing keeps available + reserved per record, creates or removes no record and keeps the id counter |
| Webhooks.ReleaseEachItems | orders/webhooks.py:120-122 | releasing changes only items' reservation references, each either kept or nulled |
| Webhooks.ReleaseEachRemoves | orders/webhooks.py:120-122 | on a consistent store every listed reservation, and no other, is deleted, and the store stays consistent |
| Webhooks.ReleaseEach | orders/webhooks.py:120-122 | releasing the given reservations in order; ReleaseEachConserves, ReleaseEachItems and ReleaseEachRemoves state it |
| Webhooks.CancelReleasesAll | orders/webhooks.py:116-122 | after the cancel loop none of the order's items holds a reservation and other orders' reservations are untouched |
| Webhooks.ReleaseEachAsWritten | orders/webhooks.py:120-122 | the cancel loop as written, one rolled-back release per reservation, leaves the ledger and the items as they were |
| Webhooks.CancelAsWrittenKeepsReservations | orders/webhooks.py:116-122 | as written an item of the cancelled order that holds a reservation still holds it after the loop, while the intended loop frees it |
| Webhooks.ReleaseOrderReservations | orders/webhooks.py:120-122 | the loop leaves the ledger and items the per-reservation release fold gives |
| Webhooks.CancelExternalOrder | orders/webhooks.py:109-127 | an unknown external id changes nothing; otherwise the order is saved CANCELLED and all its reservations are released |
| Webhooks.UpdateExternalOrder | orders/webhooks.py:89-107 | an unknown external id changes nothing; otherwise only that order changes, to ApplyUpdate's result saved; stock and items are untouched |
| Webhooks.HandleShopifyWebhook | orders/webhooks.py:29-62 | a missing channel or a failed verification is a 400 with no change; otherwise the answer is OK for any topic, including an unrecognised one, and only the routed handler changes tables |
| Webhooks.HandleWooWebhook | orders/webhooks.py:248-279 | the same answers for WooCommerce; a deleted order is cancelled with its reservations released |
| Webhooks.PassiveWebhook | orders/webhooks.py:139-166 | the Amazon, eBay and Etsy endpoints answer OK iff the channel exists, and change nothing |
| Webhooks.EbayIgnoresSignature | orders/webhooks.py:223-226 | eBay verification accepts every payload: the answer never depends on the signature |
| OrderSerializers.LineOf | orders/serializers.py:32 | a created line carries the order, product, quantity and unit price, and its total is unit price x quantity |
| OrderSerializers.LinesOfOrder | orders/serializers.py:44 | only lines of the table that belong to the order |
| OrderSerializers.WithoutOrder | orders/serializers.py:44 | after the delete, a line is in the table iff it was and belongs to another order |
| OrderSerializers.AllLinesOfOrder | orders/serializers.py:31-32 | lines written for the order are all the order's |
| OrderSerializers.NoneOfOtherOrder | orders/serializers.py:31-32 | lines written for one order are none of another's |
| OrderSerializers.WithoutOrderKeepsOthers | orders/serializers.py:44 | deleting one order's lines leaves every other order's lines as they were |
| OrderSerializers.WithoutOrderDropsOrder | orders/serializers.py:44 | after the delete the order has no lines left |
| OrderSerializers.AddLines | orders/serializers.py:30-48 | the loop appends one line per entry in order and returns the sum of their totals |
| ModelFields.Unexpected | orders/enhanced_models.py:266-422 | the keywords of a create or filter that the model does not declare: exactly those passed and not among its fields; create raises TypeError, filter FieldError, iff there is one |
| ModelFields.ForeignKeyRaises | orders/enhanced_models.py:141-173 | a foreign key to one model refuses an instance of another with ValueError; ServiceReservationRaises applies it |
| ModelFields.MovementReferenceRaises | orders/services.py:419-428 | the movement reference reads `order_number`, which EnhancedOrder declares and orders.Order (orders/models.py:65-175), the model a reservation's order points at, does not |
| ModelFields.ItemCreatesMissRequired | orders/enhanced_models.py:383-389 | without `name` the unmapped and bundle item creates still leave the NOT NULL product and total_price unset, and the single-item create leaves total_price to save() |
| ModelFields.ItemCreatesRaise | orders/services.py:208-305 | each EnhancedOrderItem create of the order service (lines 208-215, 243-251, 286-305) passes exactly one keyword the item model (enhanced_models.py:370-422) lacks: `name` |
| ModelFields.ServiceOrderCreateRaises | orders/services.py:49-63 | import_order_from_channel's EnhancedOrder create passes exactly five undeclared keywords: the customer name, e-mail and phone and the two addresses |
| ModelFields.ViewOrderCreateRaises | orders/enhanced_views.py:280-293 | import_channel_orders' EnhancedOrder create passes exactly seven undeclared keywords: those five, the payment method and the raw data |
| ModelFields.ViewLinesRaise | orders/enhanced_views.py:298-309 | the SKU mapping filter and the item create of the channel import each name exactly one undeclared field, `external_sku` |
| ModelFields.ViewReservationRaises | orders/enhanced_views.py:341-361 | reserve_stock_for_order's level filter names exactly one field StockLevel (enhanced_models.py:102-139) lacks, `available_quantity`, and its reservation create exactly one StockReservation lacks, `reserved_quantity` |
| ModelFields.AdjustmentRaises | orders/enhanced_views.py:130-137 | update_stock_levels' movement create passes exactly three keywords inventory's StockMovement (inventory/models.py:180-203) lacks: `warehouse`, `quantity_change` and `reason` |
| ModelFields.ServiceReservationRaises | orders/services.py:376-382 | reserve_stock's reservation create names only declared fields, but hands an EnhancedOrder to a key to orders.Order, which raises ValueError |
| OrderSerializers.CreateOrder | orders/serializers.py:22-36 | the new order is stored with the given writable fields (supermarket, customer name, e-mail and phone, status defaulting to PENDING, notes) and its total is the sum of its line totals, 0 with no items; lines are appended and the table stays consistent |
| OrderSerializers.CreatedTotalMatchesLines | orders/serializers.py:27-36 | after a create the order's total equals the sum of its lines in the table, and no other order's lines changed |
| OrderSerializers.Patch | orders/serializers.py:40-41 | each writable field (serializers.py:22-25) the request carries (supermarket, customer name, e-mail and phone, status, notes) takes the request's value and every other keeps the order's; the id and the total never change; an empty request changes nothing |
| OrderSerializers.UpdateOrder | orders/serializers.py:38-51 | without items the lines and total stay; with items the order's old lines are replaced by the new ones and the total is their sum |
| OrderSerializers.UpdatedTotalMatchesLines | orders/serializers.py:43-49 | after an update with items the order's total is the sum of its lines in the table |
| OrderSerializers.UpdateKeepsOtherLines | orders/serializers.py:43-49 | an update with items changes no other order's lines |
| OrderSerializers.LinesTotalIsSumOfProducts | orders/serializers.py:30-34 | the total is the sum of unit price x quantity over the entries |
| InventoryModels.FullName | inventory/models.py:29-33 | "parent > name" when there is a parent, the bare name otherwise |
| InventoryModels.FullNameEndsWithName | inventory/models.py:29-33 | whatever the parent, the full name ends with the category's own name |
| InventoryModels.ExpiryStatesExclusive | inventory/models.py:140-151 | an expired product is never expiring soon, and a product is expired exactly when its days until expiry are negative |
| InventoryModels.IsLowStock | inventory/models.py:137-138 | low stock when the quantity is at most the minimum level; used by the alert rule and the low-stock filter (InventoryViews.AlertTypesFor, InventoryFilters) |
| InventoryModels.IsExpired | inventory/models.py:141-142 | expired when the expiry date is before today; ExpiryStatesExclusive relates it to the days until expiry |
| InventoryModels.DaysUntilExpiry | inventory/models.py:145-147 | the whole days from today to the expiry date, negative once expired (ExpiryStatesExclusive) |
| InventoryModels.IsExpiringSoon | inventory/models.py:150-151 | expiring soon when one to seven days remain; never together with expired (ExpiryStatesExclusive) |
| InventoryModels.ProfitMargin | inventory/models.py:153-157 | 0 when cost <= 0; otherwise margin x cost = (selling - cost) x 100, positive exactly when selling > cost |
| InventoryModels.TotalValue | inventory/models.py:159-161 | quantity x price: 0 when either is 0, never negative for non-negative inputs, positive exactly when both are |
| InventoryFilters.FilterLowStock | inventory/filters.py:61-65 | true keeps exactly the products with quantity <= minimum stock level; false keeps all |
| InventoryFilters.FilterExpired | inventory/filters.py:67-71 | true keeps exactly the products whose expiry date is before today; false keeps all |
| InventoryFilters.FilterExpiringSoon | inventory/filters.py:73-81 | true keeps exactly the products with today < expiry <= today + 7 (the is_expiring_soon window); false keeps all |
| InventoryFilters.FilterOutOfStock | inventory/filters.py:83-87 | true keeps exactly the products with quantity 0; false keeps all |
| InventoryFilters.ExpiringSoonAndExpiredDisjoint | inventory/filters.py:67-81 | no product is in both the expiring-soon and the expired list |
| InventorySerializers.ValidateAttrs | inventory/serializers.py:164-171 | selling below cost (missing prices as 0) is the first error; min above max is an error only when a non-zero max is given |
| InventorySerializers.BarcodeAccepted | inventory/serializers.py:149-162 | a blank barcode is accepted; otherwise it is accepted iff no product other than the one being updated carries it |
| InventorySerializers.KeepOwnBarcode | inventory/serializers.py:154-157 | an update may always keep the product's own barcode |
| InventorySerializers.BarcodeForCreate | inventory/serializers.py:173-178 | the generated barcode is used only when none or a blank one is supplied |
| InventorySerializers.FirstDisallowedField | inventory/serializers.py:254-265 | the request is rejected iff some key is outside the nine allowed fields, and the key reported is one of them |
| InventoryViews.NewQuantity | inventory/views.py:134-147 | IN/RETURNED add the magnitude, OUT/EXPIRED/DAMAGED subtract it but stop at 0, ADJUSTMENT sets the value, any other type is rejected; non-adjustment types keep a non-negative quantity non-negative |
| InventoryViews.InboundThenOutboundRestores | inventory/views.py:137-140 | receiving an amount and then removing the same amount restores a non-negative quantity |
| InventoryViews.RecordedQuantity | inventory/views.py:161 | an ADJUSTMENT records exactly the difference it made: previous + recorded = new |
| InventoryViews.TotalCost | inventory/views.py:154-156 | a total cost exists iff a non-zero unit cost is given, and is unit cost x magnitude of the change |
| InventoryViews.AlertTypesFor | inventory/views.py:183-217 | LOW_STOCK iff low stock and quantity > 0; OUT_OF_STOCK iff quantity 0; EXPIRING_SOON iff expiring soon; EXPIRED iff expired and not expiring soon; never both expiry alerts and no type twice |
| InventoryViews.AlertsFor | inventory/views.py:183-217 | one unresolved alert of the product per alert type called for, with the source's priorities |
| InventoryViews.SaveAlertsKeepsUnique | inventory/views.py:219-226 | saving never creates a second unresolved alert of the same product and type, and keeps every existing alert |
| InventoryViews.SaveAlertsCovers | inventory/views.py:219-226 | after saving every candidate's type has an unresolved alert for its product |
| InventoryViews.SaveAlertsKeepsPresent | inventory/views.py:219-226 | an unresolved alert present before stays present |
| InventoryViews.SaveAlerts | inventory/views.py:219-226 | the existing alerts stay first and unchanged, and only candidates are appended, never more than there are candidates |
| InventoryViews.PriorityOf | inventory/views.py:183-217 | EXPIRED alerts are CRITICAL, OUT_OF_STOCK ones HIGH, and low-stock, expiring-soon and price-change ones MEDIUM |
| InventoryViews.CheckAndCreateAlerts | inventory/views.py:181-226 | the loop leaves exactly the alerts the save-unless-present fold gives |
| InventoryViews.PostStockUpdate | inventory/views.py:110-179 | a product not of the user's supermarkets is 404; a missing type or zero quantity, or an unknown type, is 400 with nothing changed; otherwise the quantity becomes NewQuantity, one movement with previous/new quantities, recorded quantity and total cost is logged, and the alerts are checked |
| UploadValidation.AllowedExtensions | file_processing/serializers.py:134-141 | exactly the upload types EXCEL, IMAGE and CSV have an extension list; any other raw value has none |
| UploadValidation.AfterLastDot | file_processing/serializers.py:142 | `split('.')[-1]` is the dot-free suffix of the name, preceded by a dot whenever it is shorter than the name |
| UploadValidation.ValidateFile | file_processing/serializers.py:127-149 | a file passes iff it is at most 10 MB and, for a listed upload type, its lower-cased extension is listed; an oversize file fails on size first |
| UploadValidation.AfterLastDotSplit | file_processing/serializers.py:142 | only the text after the last dot is the extension, whatever precedes it |
| UploadValidation.ExtensionOf | file_processing/serializers.py:142-143 | the extension of `base.tail` is "." followed by the lower-cased tail |
| UploadValidation.DotlessNamePasses | file_processing/serializers.py:141-147 | a name with no dot is its own extension, so a file called "xlsx" passes as an Excel upload |
| UploadValidation.SizeBoundary | file_processing/serializers.py:129-131 | exactly 10 MB passes; one byte more fails on size |
| UploadValidation.CaseIgnored | file_processing/serializers.py:142 | the check gives the same verdict for a name and its lower-cased form |
| UploadValidation.UnlistedTypeSkipsExtension | file_processing/serializers.py:141-147 | an upload type outside the table skips the extension check |
| UploadValidation.DoubleExtensionRejected | file_processing/serializers.py:141-147 | "report.xlsx.exe" is not accepted as an Excel file |
| UploadValidation.ValidateSupermarket | file_processing/serializers.py:151-161 | passes iff the supermarket exists and the user owns it; a missing id gives the not-found message |
| UploadValidation.ValidateUploadSession | file_processing/serializers.py:174-184 | passes iff the session exists, belongs to the user and is COMPLETED; another user's session gets the permission message |
| UploadValidation.OwnershipCheckedFirst | file_processing/serializers.py:177-181 | another user's unfinished session is refused on ownership, not on status |
| UploadSessions.RecordOf | file_processing/services.py:81-93 | the stored ExtractedProduct carries its row number, the validation errors, is valid iff there are none, and is not yet processed |
| UploadSessions.RecordsOf | file_processing/services.py:71-95 | a row stores one record iff it did not raise |
| UploadSessions.Storable | file_processing/services.py:81-93 | the insert succeeds: name and halal flag not null, and the raw row Loggable |
| UploadSessions.Reached | file_processing/services.py:43-55 | the pass reaches every row before the first that aborts (process_row raises and the ERROR log of its raw row, services.py:53-54 and 439-446, raises too), and stops at that one |
| UploadSessions.DateCellStopsPass | file_processing/services.py:53-54 | a first row with a date cell in any column stops the pass at once: its insert and its error log both raise |
| UploadSessions.PassCountsReachedRows | file_processing/services.py:43-55 | each reached row is counted once as processed or failed; after an abort the counters fall short of the sheet's length |
| UploadSessions.RowResult | file_processing/services.py:71-95 | process_row: none when the product data or the insert fails, else the data and its validation errors; RecordsOf states what is stored |
| UploadSessions.StoredFrom | file_processing/services.py:43-55 | a pass stores at most one record per row |
| UploadSessions.StoredRecordsShape | file_processing/services.py:43-55 | the stored records have consecutive ids and rising row numbers within the sheet, and are valid iff they have no errors |
| UploadSessions.ValidCountBounded | file_processing/services.py:91-93 | no more rows count as successful than were stored |
| UploadSessions.UploadSession.constructor | file_processing/views.py:47-55 | a new session is UPLOADING with progress and every counter at 0 and nothing extracted |
| UploadSessions.ExtractProductData | file_processing/services.py:97-127 | the field loop computes the product data the column table defines |
| UploadSessions.GatherFields | file_processing/services.py:122-125 | each field's column is looked up and cleaned in table order, stopping at the first cleaning error |
| UploadSessions.ProcessRow | file_processing/services.py:71-95 | the row is stored iff it yields a record; the record is appended, the next id moves past it and successful_rows grows by one iff it is valid |
| UploadSessions.Percent | file_processing/services.py:53 | `int(processed / total * 100)` is the percentage rounded down, at most 100 when part <= whole |
| UploadSessions.RunRowsStored | file_processing/services.py:43-55 | after the loop the stored records are appended in row order and the next id has moved past them |
| UploadSessions.RunRowsCounts | file_processing/services.py:43-55 | every row of a run that does not abort is counted either processed or failed, the valid stored rows as successful, and progress is the processed share of the total |
| UploadSessions.StepRow | file_processing/services.py:47-55 | one row of the pass that does not abort it; CountRow and ProcessSheetRow state it |
| UploadSessions.RunRows | file_processing/services.py:43-55 | the pass over the rows before the first abort; RunRowsStored, RunRowsCounts and ProcessRows state it |
| UploadSessions.ProcessSheetRow | file_processing/services.py:44-55 | one turn of the loop aborts iff the row Aborts, changing nothing; otherwise it performs exactly one step of the pass |
| UploadSessions.ProcessRows | file_processing/services.py:43-55 | the loop aborts iff some row Aborts, and leaves the session where RunRows over the Reached rows puts it |
| UploadSessions.CountRow | file_processing/services.py:47-55 | a stored row is processed and moves the progress; a row that raised is failed when its error log is written, and ends the pass with nothing counted when the log insert raises |
| UploadSessions.ProcessFile | file_processing/services.py:29-69 | an unreadable file puts the session in ERROR with the reader's message and no other change; a readable one runs the Reached rows, returns true and ends COMPLETED at `now` iff every row is reached, else ends in ERROR with the log insert's message and returns false |
| UploadSessions.RunSheet | file_processing/services.py:40-55 | the total is the sheet's length, the Reached rows are processed in order, and it aborts iff a row Aborts |
| UploadSessions.FreshProgressBounded | file_processing/services.py:47-55 | a fresh session never reports more than 100 percent nor more successful than stored rows |
| UploadSessions.CancelUploadSession | file_processing/views.py:247-268 | only an UPLOADING or PROCESSING session becomes CANCELLED; any other status is refused and unchanged; no counter changes |
| UploadSessions.ScheduleFileProcessing | file_processing/tasks.py:119-126 | Excel and image uploads get their processing task for that session; a CSV upload gets none |
| UploadSessions.RetryUploadSession | file_processing/views.py:273-300 | only a session in ERROR returns to UPLOADING with progress 0, its error cleared and a new task; otherwise it is refused and unchanged |
| UploadSessions.Rate | file_processing/views.py:361-362 | the rate is part/whole x 100, 0 for an empty whole, and between 0 and 100 when part <= whole |
| UploadSessions.CountDisjoint | file_processing/views.py:336-342 | sessions counted under two disjoint status sets add up to the count under their union |
| UploadSessions.StatsConsistent | file_processing/views.py:333-365 | completed, failed and in-flight sessions never exceed the total, and both rates are percentages |
| UploadSessions.UploadSessionStats | file_processing/views.py:333-365 | upload_session_stats: the counts by status and the two rates; CountDisjoint and StatsConsistent state its bounds |
| UploadSessions.EligibleIndices | file_processing/views.py:133-142 | exactly the valid, unprocessed products (among the chosen ids, when any) are selected, in order |
| UploadSessions.BatchOperation.constructor | file_processing/views.py:150-155 | a new batch is PENDING with its total and zero counters |
| UploadSessions.StartImport | file_processing/views.py:126-165 | with nothing eligible the import is refused; otherwise a fresh pending IMPORT batch totals the eligible products and the answer is "Import started for N products" with that total |
| FileRows.ExactFrom | file_processing/services.py:133-134 | the first column from k on whose header is exactly the candidate, and none when no header is |
| FileRows.FoldedFrom | file_processing/services.py:137-139 | the first column from k on whose header equals the candidate ignoring case, and none when no header does |
| FileRows.Hit | file_processing/services.py:131-139 | one candidate finds nothing iff no header equals it ignoring case |
| FileRows.ExactBeatsFolded | file_processing/services.py:133-139 | an exact header match wins over a case-insensitive match, even one further left |
| FileRows.FindFrom | file_processing/services.py:129-141 | the lookup finds nothing iff no remaining candidate hits |
| FileRows.FirstCandidateWins | file_processing/services.py:131-134 | the first candidate that hits decides the value, whatever later candidates would find |
| FileRows.FoundIffHeaderMatches | file_processing/services.py:129-141 | find_column_value returns None iff no candidate equals any header ignoring case |
| FileRows.FindColumnValue | file_processing/services.py:129-141 | no value exactly when no candidate header hits the row |
| FileRows.PriceChars | file_processing/services.py:153 | the price text keeps only digits, points and commas |
| FileRows.DecimalText | file_processing/services.py:154 | Decimal() of the cleaned text is a non-negative number or a refusal |
| FileRows.TruncDiv | file_processing/services.py:158 | int() of a float rounds toward zero on both signs |
| FileRows.CleanValue | file_processing/services.py:143-175 | a missing or empty cell cleans to None; only the quantity fields can raise; a cleaned value fits its field; halal always gives a boolean; text fields are stripped |
| FileRows.DigitsRead | file_processing/services.py:154-158 | a digit string reads as its number through both Decimal() and float() |
| FileRows.CurrencyPrice | file_processing/services.py:149-154 | "$" followed by digits cleans to that price |
| FileRows.CleanPrice | file_processing/services.py:149-155 | a present, non-empty price cell cleans to Decimal() of its text with everything but digits, points and commas removed |
| FileRows.MinusSignDropped | file_processing/services.py:153 | the currency filter drops a minus sign, so "-5" is the price 5 |
| FileRows.ThousandsSeparatorRefused | file_processing/services.py:153-174 | "1,000" makes Decimal() fail and cleans to None |
| FileRows.TruncatedDigits | file_processing/services.py:157-158 | a digit string with blanks around it truncates to its number |
| FileRows.NegativeDigits | file_processing/services.py:157-158 | a minus sign before the digits negates the number |
| FileRows.QuantityText | file_processing/services.py:157-158 | a padded whole-number quantity cleans to that number |
| FileRows.NegativeQuantityText | file_processing/services.py:157-158 | a quantity keeps its minus sign |
| FileRows.CleanQuantityText | file_processing/services.py:157-158 | quantity text goes straight to int(float(...)) |
| FileRows.InfiniteQuantity | file_processing/services.py:157-174 | an infinite quantity raises OverflowError, which the except clause does not catch |
| FileRows.FloatQuantityTruncates | file_processing/services.py:158 | 1.9 gives 1 and -1.9 gives -1 |
| FileRows.GatherNone | file_processing/services.py:121-125 | the field loop fails iff some listed field's present cell raises |
| FileRows.GatherKeys | file_processing/services.py:121-125 | a successful loop keys exactly the fields whose column is present, each with its cleaned value |
| FileRows.ProductDataNone | file_processing/services.py:97-127 | the product data is missing iff the quantity or minimum stock cell overflows |
| FileRows.ProductDataOf | file_processing/services.py:97-127 | extract_product_data: each field looked up and cleaned in table order, failing on the first cleaning error; its properties are ProductDataNone, ProductDataEntries, ProductDataKeys and ProductDataFits |
| FileRows.RaisesIffOverflows | file_processing/services.py:157-174 | a field raises iff its cell overflows, and only quantity fields can |
| FileRows.ProductDataEntries | file_processing/services.py:121-125 | the product data holds exactly the present fields with their cleaned values |
| FileRows.ProductDataKeys | file_processing/services.py:123-125 | a field is a key iff one of its candidate headers is present, whatever the cell holds |
| FileRows.ProductDataFits | file_processing/services.py:123-125 | every value in the product data is of its field's kind |
| FileRows.FieldListed | file_processing/services.py:100-117 | the column table lists every field |
| FileRows.ValidateProductData | file_processing/services.py:177-202 | each of the five messages is present iff its rule fails: name, barcode, selling below cost, negative quantity, past expiry |
| FileRows.ValidIffNoErrors | file_processing/services.py:177-202 | a row is valid iff it has a name and barcode, a selling price not below a non-zero cost, no negative quantity and no past expiry |
| FileRows.ZeroSellingPriceNotCompared | file_processing/services.py:189-191 | a zero selling price is falsy and is never compared with the cost price |
| FileRows.NoNameColumnInvalid | file_processing/services.py:181-182 | a row with no name column is never valid |
| ImageText.ProductNameWithoutDigitCheck | file_processing/services.py:361-380 | a text is a product name iff, stripped, it has at least three characters, is not a skip word and holds an ASCII letter: the pure-number check never decides |
| ImageText.IsProductName | file_processing/services.py:361-380 | _is_likely_product_name; ProductNameWithoutDigitCheck states exactly which texts it accepts |
| ImageText.LetterSurvivesStrip | file_processing/services.py:368-378 | a text with an ASCII letter is never all digits once stripped |
| ImageText.ProductNameLongEnough | file_processing/services.py:364-378 | a product name has at least three characters after stripping and holds a letter |
| ImageText.DetectProducts | file_processing/services.py:292-309 | the loop returns the confident product-name results, in order, with their names stripped |
| ImageText.DetectedProductsWellFormed | file_processing/services.py:296-307 | every detected product has confidence at least 0.5 and a stripped name of three or more characters with a letter |
| ImageText.DigitRun | file_processing/services.py:341-343 | the length of the maximal digit run from a position |
| ImageText.FindStarts | file_processing/services.py:351 | the scan reports rising positions where the pattern matches |
| ImageText.FoundAtMeansMatch | file_processing/services.py:341-343 | the scan's test is exactly the meaning of `\b\d{lo,hi}\b` |
| ImageText.DigitRunExact | file_processing/services.py:341-343 | a digit run ended by a non-word character is the whole run |
| ImageText.NoMatchInsideRun | file_processing/services.py:341-343 | no match starts strictly inside a run of digits |
| ImageText.FindStartsComplete | file_processing/services.py:351 | re.findall reports a position iff the pattern matches there |
| ImageText.FindAll | file_processing/services.py:351 | every match is all digits and of the pattern's length range |
| ImageText.AnyThirteenDigits | file_processing/services.py:341 | any thirteen lone digits are reported as a barcode: no check digit is computed |
| ImageText.Tagged | file_processing/services.py:352-357 | each match is reported with the result's confidence and box |
| ImageText.DetectBarcodes | file_processing/services.py:337-359 | the loops return, for each result of confidence at least 0.7, every match of every pattern in order |
| ImageText.ResultBarcodes | file_processing/services.py:350-357 | the inner loops over the three patterns for one result |
| ImageText.PatternsBarcodesWellFormed | file_processing/services.py:350-357 | every code found for one result is all digits of a listed length |
| ImageText.DetectedBarcodesWellFormed | file_processing/services.py:337-359 | every reported barcode comes from a result of confidence at least 0.7 and has 8, 12, 13 or 14 digits |
| ProductImport.MergedKeeps | file_processing/services.py:543-567 | an update never touches identity, barcode, category, supplier, dates, threshold, halal data or owner; an empty extracted field keeps the old value; a zero quantity still overwrites |
| ProductImport.MergedIdempotent | file_processing/services.py:543-567 | importing the same extracted product twice updates nothing more |
| ProductImport.Merged | file_processing/services.py:543-567 | the update of an existing product by the extracted data; MergedKeeps and MergedIdempotent state what it keeps and that it settles |
| ProductImport.LinkedName | file_processing/services.py:569-589 | a category or supplier is linked iff its name is truthy, under the stripped name |
| ProductImport.NewProductDefaults | file_processing/services.py:515-541 | a new product gets AUTO_<id> without a barcode, minimum stock 5 for a falsy level, selling and current price filling in for each other, and today as a missing expiry |
| ProductImport.NewProduct | file_processing/services.py:515-541 | the product created from extracted data; NewProductDefaults states its defaults |
| ProductImport.FindProductFrom | file_processing/services.py:497-504 | the lookup finds the first product with that barcode in that supermarket, and none when there is no such product |
| ProductImport.ImportOneKeepsUnique | file_processing/services.py:493-541 | one import keeps barcodes unique and adds a product exactly when it reports imported |
| ProductImport.ImportOne | file_processing/services.py:493-541 | one import: update the supermarket's product under the barcode, else create one, else fail; ImportOneKeepsUnique, ExistingBarcodeUpdates and ForeignBarcodeFails state its cases |
| ProductImport.ExistingBarcodeUpdates | file_processing/services.py:497-509 | a product already in the supermarket under the barcode is updated in place, never duplicated |
| ProductImport.ForeignBarcodeFails | file_processing/services.py:497-524 | a barcode held by another supermarket's product misses the lookup, collides on create, and the row fails with nothing changed |
| ProductImport.ImportStep | file_processing/services.py:480-489 | one product: a success is counted and marks it processed; a failure counts an error and leaves it unprocessed |
| ProductImport.ImportRun | file_processing/services.py:480-489 | the run keeps the number of extracted products |
| ProductImport.ImportRunAccounts | file_processing/services.py:480-489 | every position counts once as imported, updated or error, none is skipped, the successes are the newly processed products, and barcodes stay unique |
| ProductImport.ImportRunLeavesOthers | file_processing/services.py:480-489 | products outside the run are untouched |
| ProductImport.ImportAccounts | file_processing/services.py:462-491 | over a session: each eligible product counts once, none skipped, successes are the newly processed, the table grows by the imported ones, non-eligible products are unchanged |
| ProductImport.Catalog.constructor | file_processing/services.py:458-460 | an importer starts on an empty, well-formed product table |
| ProductImport.UpdateExistingProduct | file_processing/services.py:543-567 | the field assignments replace exactly the one product by its merge with the extracted data |
| ProductImport.UpdateText | file_processing/services.py:546-564 | the text assignments compute the text part of the merge |
| ProductImport.UpdatePrices | file_processing/services.py:552-559 | the price and quantity assignments compute the numeric part of the merge |
| ProductImport.ImportSingleProduct | file_processing/services.py:493-513 | the table and the outcome are those of one import step |
| ProductImport.ImportProducts | file_processing/services.py:462-491 | every eligible product of the session is imported in row order with its outcome counted, and a success marks it processed |
| ImportTasks.BatchAccounts | file_processing/tasks.py:66-69 | processed items are the successful plus the failed ones, and number the eligible products of the selection |
| ImportTasks.RunBatch | file_processing/tasks.py:55-88 | the batch is RUNNING from start; then it copies the importer's counters and is COMPLETED, or on failure it is FAILED with one error entry |
| ImportTasks.Complete | file_processing/tasks.py:66-73 | successful = imported + updated, failed = errors, processed = the sum, the summary kept, COMPLETED at finish |
| ImportTasks.ImportProductsBatch | file_processing/tasks.py:63-64 | as written, the processed count is that of a run over every eligible product, whatever was selected |
| ImportTasks.ImportProductsBatchSelected | file_processing/tasks.py:63-64 | with the selection passed, the processed count is that of the selected eligible products |
| ImportTasks.BatchIgnoresSelection | file_processing/views.py:133-155 | selecting one of two eligible products announces a total of 1, while the job as written imports both |
| Reminders.DefaultRemindAt | notifications/services.py:48-50 | the explicit reminder time wins; otherwise it lies days_before days ahead of the target; there is none only when neither is given |
| Reminders.FrequencyDays | notifications/services.py:310-320 | every frequency except ONCE has a step in days |
| Reminders.NextReminderAt | notifications/services.py:301-335 | a next date exists only for a recurring reminder with a target and a step, equals the target plus one step minus days_before, and is after now |
| Reminders.NotificationTypeFor | notifications/services.py:253-262 | EXPIRY maps to EXPIRY and an unlisted reminder type to SYSTEM |
| Reminders.PriorityFor | notifications/services.py:265-274 | the priority is HIGH, MEDIUM or LOW, and HIGH exactly for EXPIRY |
| Reminders.NoticeFor | notifications/services.py:247-262 | the notification of a run: the reminder's user and title, the description or "Reminder: " and the title, and the type and priority NotificationTypeFor and PriorityFor give |
| Reminders.NewReminder | notifications/services.py:48-66 | a created reminder: ACTIVE, unsent, with the computed reminder time (DefaultRemindAt) and the model's default for send_email; CreateReminder states what the store keeps |
| Reminders.RunKeepsNextDate | notifications/services.py:136-155 | a run never moves the target or the schedule, so any later run computes the same next date |
| Reminders.Executed | notifications/services.py:136-155 | a successful run as written: sent now, kept active with the next date and new task when there is one, completed otherwise; RunKeepsNextDate and RecurrenceStopsAfterOne state its effect |
| Reminders.ExecutedAdvancing | notifications/services.py:136-155 | the corrected run, which also moves the target on one step; AdvancingKeepsRecurring states that it keeps recurring |
| Reminders.RecurrenceStopsAfterOne | notifications/services.py:136-155 | as written, a recurring reminder's second run finds no next date and completes it |
| Reminders.AdvancingKeepsRecurring | notifications/services.py:305-330 | with the target moved on by one step per run, the run at the next date schedules another one step later and the reminder stays active |
| Reminders.ReminderStore.constructor | notifications/services.py:22-24 | the store starts with no reminders, tasks, logs or notifications |
| Reminders.ReminderStore.Schedule | notifications/services.py:85-104 | a new one-off task is appended under a fresh id |
| Reminders.ReminderStore.Unschedule | notifications/services.py:372 | exactly the tasks of that name are removed, the others kept in order |
| Reminders.ReminderStore.CreateReminder | notifications/services.py:26-82 | a fresh active, unsent reminder is stored with its computed reminder time; a first-run task is queued iff that time exists |
| Reminders.ReminderStore.ExecuteReminder | notifications/services.py:107-173 | a missing reminder changes nothing; an inactive one is only logged as skipped; an active one is sent, notified, rescheduled when a next date exists and completed otherwise |
| Reminders.ReminderStore.ExecuteReminderAdvancing | notifications/services.py:136-155 | the corrected run: as ExecuteReminder, except that a rescheduled reminder has its target date moved on one frequency step, so by AdvancingKeepsRecurring it keeps recurring |
| Reminders.ReminderStore.CancelReminder | notifications/services.py:361-388 | true iff the reminder exists; it becomes CANCELLED whatever its status and its first-run task is removed when it has one |
| Reminders.ReminderStore.UpdateReminder | notifications/services.py:391-441 | a missing id changes nothing; otherwise the fields are set, the time recomputed when the schedule was touched, and the task replaced when the time changed on an active reminder and is still to come |
| Reminders.ReminderStore.Reschedule | notifications/services.py:421-431 | the old first-run task is removed and one at the new time recorded on the reminder |
| Reminders.ReminderStore.Revive | notifications/admin.py:221-223 | the reminder is saved as ACTIVE and nothing else changes |
| Reminders.ReminderStore.CleanupOldReminders | notifications/services.py:537-557 | exactly the finished reminders not saved since the cutoff are deleted, the rest kept unchanged, and the count is the number deleted |
| Reminders.Stale | notifications/services.py:537-557 | a COMPLETED, CANCELLED or FAILED reminder last saved before the cutoff; CleanupOldReminders deletes exactly these |
| Reminders.CreateExpiryReminder | notifications/services.py:472-498 | one EXPIRY reminder with the product's texts, targeting its expiry date, is added and nothing else stored changes |
| Reminders.CreateBulkExpiryReminders | notifications/services.py:503-534 | one expiry reminder per product, in order, under rising fresh ids; earlier reminders are untouched |
| Reminders.Updated | notifications/services.py:405-412 | the reminder time is recomputed iff the schedule was touched and both target and days_before are truthy |
| Reminders.UnknownArgumentsIgnored | notifications/services.py:405-407 | arguments naming no attribute change nothing |
| Reminders.Known | notifications/services.py:406 | only arguments naming an attribute are kept |
| Reminders.UpdateKeepsIdentity | notifications/services.py:405-412 | an update never sets the identity, owner, sending state or task |
| Reminders.UpdateKeepsStatus | notifications/services.py:405-407 | only a status argument changes the status |
| Reminders.Selected | notifications/admin.py:205-220 | exactly the selected reminders in the filtered status |
| Reminders.SelectedOnce | notifications/admin.py:205-206 | the filtered queryset yields each reminder once, however often its id was selected |
| Reminders.MarkAll | notifications/admin.py:205-207 | marking keeps the set of reminders |
| Reminders.CancelReminders | notifications/admin.py:200-212 | every ACTIVE selected reminder is cancelled and counted once |
| Reminders.CancelOne | notifications/admin.py:206-207 | one cancel_reminder call extends the cancelled prefix by one reminder |
| Reminders.ActivateReminders | notifications/admin.py:215-229 | the action aborts (TypeError on a missing reminder time) exactly when a selected CANCELLED reminder has no reminder time; the CANCELLED selected reminders before that point whose time is still to come become ACTIVE and are counted, and those are the only changes |
| Reminders.ReviveRun | notifications/admin.py:219-223 | the loop over the loaded CANCELLED reminders stops at the first without a reminder time, revives the ones before it whose time is to come, and counts them |
| Reminders.TimedRun | notifications/admin.py:218-220 | how far the loop gets: every CANCELLED reminder before that point has a reminder time, and the one at that point has none |
| ReminderValidation.ValidateReminder | notifications/serializers.py:94-126 | accepted iff the given times are in the future, days_before is not negative and the reminder time is within an hour of the target minus days_before; a past target is rejected first |
| ReminderValidation.DefaultRemindAtPasses | notifications/serializers.py:94-126 | the reminder time create_reminder computes passes the check whenever it is still to come |
| ReminderValidation.ValidateReminderCreate | notifications/serializers.py:141-184 | accepted iff a time or a target is given, the times are in the future, days_before is not negative, and a recurring reminder has a target and a frequency other than ONCE |
| ReminderValidation.AcceptedCreateSchedules | notifications/serializers.py:141-184 | an accepted create request gets a reminder time, and a recurring one has a target and a step |
| ReminderValidation.ValidateStatus | notifications/serializers.py:198-205 | a completed or failed reminder may only be cancelled |
| ReminderValidation.ValidateReminderUpdate | notifications/serializers.py:207-231 | only the fields sent are checked |
| ReminderValidation.UpdateCheckWeaker | notifications/serializers.py:207-231 | without days_before, a request passing the general check passes the update check |
| ReminderValidation.ValidateExpiryReminder | notifications/serializers.py:250-280 | accepted iff days_before is in 1..365 and both the expiry date and the reminder time it implies are in the future |
| ReminderValidation.ExpiryCheckSubsumed | notifications/serializers.py:260-280 | a future reminder time with days_before at least 1 implies a future expiry date |
| ReminderValidation.FirstRejected | notifications/serializers.py:292-302 | none iff every product passes, else a position whose product fails |
| ReminderValidation.ValidateBulk | notifications/serializers.py:283-302 | accepted iff every product passes, there are 1 to 100, and no two share a name |
| ReminderValidation.AcceptedBulkDueLater | notifications/serializers.py:283-302 | every reminder an accepted bulk request creates is due in the future |
| Purchasing.TotalAmount | purchasing/models.py:52-54 | an order without items totals 0 and a single item totals its quantity times its unit price |
| Purchasing.TotalAmountAppend | purchasing/models.py:52-54 | adding items adds their totals |
| Purchasing.TotalAmountNonNegative | purchasing/models.py:52-54 | non-negative quantities and prices never give a negative total |
| Purchasing.OrderNumberAsWritten | purchasing/models.py:57 | as written, an order without an id shows "PO" even when it has a po_number |
| Purchasing.OrderNumber | purchasing/models.py:57 | the po_number when set, else "PO#<id>" for a saved order, else "PO" |
| Purchasing.OrderNumberDiffers | purchasing/models.py:57 | the two agree on every saved order and differ on an unsaved order that has a po_number |
| Purchasing.OrderLabel | purchasing/models.py:56-58 | the intended label, built on the corrected order number: the order number, " - ", the supplier name, " - " and the status name, with its length the sum of those parts |
| Purchasing.OrderLabelShowsStatus | purchasing/models.py:58 | two labels of the same order differ exactly when the statuses differ |
| Purchasing.PurchaseOrder.constructor | purchasing/models.py:38 | a new order is in the default status DRAFT |
| Purchasing.PurchaseOrder.Receive | purchasing/views.py:41-48 | succeeds iff the order was not yet received, and the order is received afterwards in both cases |
| Purchasing.ReceiveTwice | purchasing/views.py:41-48 | a second receive is always refused |
| Purchasing.Stats | purchasing/views.py:50-58 | the total and the received, draft and sent counts of the orders |
| Purchasing.CountStatusSplit | purchasing/views.py:54-57 | counts under disjoint status sets add up to the count under their union |
| Purchasing.StatsAccount | purchasing/views.py:50-58 | the counters leave exactly the cancelled orders unaccounted for |
| Purchasing.ParseQty | purchasing/views.py:100-104 | an absent, empty or unparsable qty gives 1; otherwise the integer int() reads |
| Purchasing.ParseNatText | purchasing/views.py:102 | int() reads the decimal text of a natural number back |
| Purchasing.ParseNegText | purchasing/views.py:102 | int() reads "-" and digits as the negative number |
| Purchasing.QtyRoundTrip | purchasing/views.py:100-104 | reading back the text of any quantity gives that quantity |
| Purchasing.Offers | purchasing/views.py:105 | exactly the active offers for the product |
| Purchasing.Cheapest | purchasing/views.py:108 | an offer of least price among the offers |
| Purchasing.BestSupplier | purchasing/views.py:98-112 | no supplier iff there is no active offer for the product; otherwise the cheapest active offer and its price times the quantity |
| Purchasing.BestIsCheapestSupplier | purchasing/models.py:18-19 | with unique supplier-product pairs, no active offer for the product in the table is cheaper than the recommendation |
| Accounts.LastIndexOf | accounts/models.py:15 | the last position of the character, and none iff it does not occur |
| Accounts.NormalizeEmail | accounts/models.py:15 | the address is stripped; without '@' it is kept; with one, everything up to the last '@' is kept as it is, the '@' stays, and every character after it is lower-cased, so the length is kept |
| Accounts.NormalizeEmailIdempotent | accounts/models.py:15 | normalising twice changes nothing more |
| Accounts.CreateUser | accounts/models.py:10-19 | refused with "The Email field must be set" iff the e-mail is empty; otherwise the normalised address, the password and the flags with Django's defaults |
| Accounts.CreateSuperuser | accounts/models.py:21-32 | created iff the e-mail is set and neither flag is explicitly false, refusing staff before superuser; a created superuser is staff and superuser |
| Accounts.SuperuserIsUserWithFlags | accounts/models.py:23-32 | a superuser is an ordinary user created with both flags set |
| Accounts.Expired | accounts/models.py:89-94 | expired iff there is an end date and now is past it |
| Accounts.DaysRemaining | accounts/models.py:104-109 | none iff no end date; otherwise the whole days left rounded down, and 0 once past |
| Accounts.User.IsSubscriptionExpired | accounts/models.py:89-94 | the stored subscription is expired iff it has an end date and now is past it |
| Accounts.User.SubscriptionDaysRemaining | accounts/models.py:104-109 | none iff the user has no end date; otherwise the whole days left, and 0 once the end has passed |
| Accounts.ExpiredHasNoDaysLeft | accounts/models.py:89-109 | an expired subscription has 0 days left, and one with days left is not expired |
| Accounts.ExtendedEnd | accounts/models.py:96-101 | the end moves by exactly the days, counted from the old end or from now when there is none |
| Accounts.ExtendAddsDays | accounts/models.py:96-109 | extending a running subscription by d days adds exactly d days to what remains |
| Accounts.ExtendExpiredStaysExpired | accounts/models.py:96-101 | an end more than d days past is still expired after extending by d days |
| Accounts.ExtendFreshRuns | accounts/models.py:96-109 | a subscription without an end date, extended by d > 0 days, runs with d days left |
| Accounts.User.ExtendSubscription | accounts/models.py:96-102 | the stored end is the extended end |
| Accounts.TokenExpired | accounts/models.py:170-189 | a token is expired iff now is past its expiry, used or not |
| Accounts.TokenExpiryMonotone | accounts/models.py:170-172 | a token that has expired stays expired |
| Backfill.Digits | backfill_missing_supermarkets.py:38 | the digits of the text, no longer than it |
| Backfill.SanitizePhone | backfill_missing_supermarkets.py:35-41 | the fallback number without a phone or without digits, else "+" and the digits |
| Backfill.PhoneShape | backfill_missing_supermarkets.py:35-41 | every sanitised phone is "+" followed by at least one digit |
| Backfill.SanitizeIdempotent | backfill_missing_supermarkets.py:35-41 | sanitising a sanitised phone changes nothing |
| Backfill.LocalPart | backfill_missing_supermarkets.py:52 | the text before the first '@', or the whole address without one |
| Backfill.NameFor | backfill_missing_supermarkets.py:43-54 | the stripped company name, else "<first name>'s Supermarket", else "<local part or My>'s Supermarket" |
| Backfill.NameNeverBlank | backfill_missing_supermarkets.py:43-54 | the name is never blank |
| Backfill.AddressFor | backfill_missing_supermarkets.py:56-58 | the stripped address, or "Not provided" |
| Backfill.AddressNeverBlank | backfill_missing_supermarkets.py:56-58 | the address is never blank |
| Backfill.SupermarketFor | backfill_missing_supermarkets.py:73-80 | the new supermarket belongs to the user, carries their e-mail and the fixed description, a non-blank name and address and a "+digits" phone |
| Backfill.CreatedFromUsers | backfill_missing_supermarkets.py:67-90 | every created supermarket is the one made for a missing user whose creation did not fail |
| Backfill.MissingUsers | backfill_missing_supermarkets.py:61 | exactly the users owning no supermarket |
| Backfill.Run | backfill_missing_supermarkets.py:60-96 | the supermarkets made are those for the missing users whose creation did not fail, and created plus skipped is the number missing |
| PosTasks.ResultFor | pos_integration/tasks.py:24-28 | Square's own sync result, or a failure "POS type not supported yet" for any other POS type |
| PosTasks.OutcomeOf | pos_integration/tasks.py:34-47 | SUCCESS iff the result succeeded iff the integration becomes ACTIVE; otherwise FAILED and ERROR, with the error or "Unknown error" on the log and the error itself on the integration |
| PosTasks.UnsupportedAlwaysFails | pos_integration/tasks.py:24-28 | any POS type but Square always ends in ERROR with the not-supported message |
| PosTasks.SilentFailure | pos_integration/tasks.py:40-47 | a failure without error text leaves "Unknown error" on the log but no last error on the integration |
| PosTasks.Integration.constructor | pos_integration/models.py:54-56 | a new integration is INACTIVE with no last sync and no last error |
| PosTasks.SyncLog.constructor | pos_integration/services.py:37-43 | trigger_sync's log starts SUCCESS with its start time and zero items |
| PosTasks.PerformPosSync | pos_integration/tasks.py:13-63 | without the integration the log becomes FAILED with the lookup error; without the log nothing changes; otherwise the log and the integration take the outcome of the result and the last sync is now |
| PosTasks.DueSync | pos_integration/tasks.py:68-84 | FULL iff active, auto-sync on and never synced; INCREMENTAL iff active, auto-sync on and at least sync_interval minutes since the last sync |
| PosTasks.AutoTasks | pos_integration/tasks.py:66-84 | at most one task per integration |
| PosTasks.AutoTasksDue | pos_integration/tasks.py:66-84 | the queued tasks are exactly the due integrations with their sync type, and none names a sync log |
| PosTasks.ScheduleAutoSyncs | pos_integration/tasks.py:66-84 | the loop queues exactly the tasks AutoTasks describes |
| PosTasks.RunAutoTaskAsWritten | pos_integration/tasks.py:17-63 | a queued task as written finds no log, so the integration keeps its status and last sync |
| PosTasks.AutoSyncWithoutLog | pos_integration/tasks.py:81-84 | an integration that never synced is due, yet its task names no sync log |
| PosTasks.LoggedTasks | pos_integration/services.py:37-52 | each due integration's task names its own log, numbered from the first |
| PosTasks.ScheduleAutoSyncsWithLogs | pos_integration/services.py:37-52 | each due integration gets a fresh log for its integration and sync type before its task is queued |
| PosTasks.RunLoggedTask | pos_integration/tasks.py:13-48 | a task with its log runs the sync: the integration's last sync is now and its status is the result's outcome |

## Left out

- Concurrency: database transactions, row locks and `select_for_update` are not modelled. Each operation is one sequential step on the state it is given.
- HTTP and REST framework plumbing: routing, permissions, pagination, JSON parsing and the shape of responses, apart from the status and body fields the model states. Admin configuration, URLs and settings are also out. The setup, deploy, debug and test scripts are outside the core.
- HMAC signatures of webhooks (RFC 2104 section 2): a signature check is a boolean given to the model. Only the rule that an unconfigured secret accepts every request is modelled.
- Outbound calls are parameters:
  - the Square API (`SquareService.sync_products`): its result is given;
  - the channel push stubs;
  - `send_mail`: delivery is a given boolean;
  - the Django-Q `schedule` and `async_task`: they append to a task list that the model keeps;
  - webhook registration with the channels.
- Text recognition itself (easyocr, OpenCV) is not modelled. Neither are the price detection over floating-point prices, the nearest-text pairing by bounding-box centre, or the products created from image sessions. The recognition confidence is a given number.
- Barcode, PDF and QR rendering are out. So is `generate_barcode_number`, which draws on a hash and randomness: a generated barcode is a parameter.
- Date parsing (`pandas.to_datetime`) is the parameter `parseDate`. The channel payload normalisers' date parsing is out.
- The analytics and dashboard views (`analytics` app, order analytics, dashboard metrics, product statistics) are out. So is `sync_stock_to_channels`, which refers to a `SyncLog` model that does not exist.
- Some code reads fields that its models do not define: `rule.conditions`, `order.priority` and `customer_email`, and `_evaluate_rule_conditions` defined on the wrong class. The model uses the evidently meant fields and does not reproduce the resulting `AttributeError`s.
- update_stock_levels assigns `available_quantity` and `damaged_quantity` on a stock level. Neither is a field, so the assignment silently sets a plain attribute, and save() stores the counts unchanged. reserve_stock_for_order filters on `available_quantity`, which raises FieldError. In both places the model uses the `available` and `damaged` fields that were evidently meant. The as-written behaviour is in ModelFields and in the Findings rows.
- Several creates pass keyword arguments that their models do not declare, or give a foreign key the wrong model. ModelFields proves which call sites raise as written. The members below model the intended behaviour; each line names the exception the code raises as written, and the Findings table pairs the two.
- ReserveIn: as written the reservation create gives `StockReservation.order` (a foreign key to `orders.Order`) an `EnhancedOrder`, which raises ValueError. The atomic block rolls back and None is returned, so no reservation is ever made (StockLedger.ReserveInAsWritten, Findings).
- Reserve: inherits ReserveIn's intended success; as written it never returns a reservation (Findings).
- ReserveStock: inherits ReserveIn's intended success; as written the ValueError makes it return None with the ledger rolled back (Findings).
- ReserveAt: the in-place steps of ReserveIn's intended success; as written the reservation create raises ValueError and the steps roll back (Findings).
- ProcessSingleItem: as written the item create passes `name`, which EnhancedOrderItem lacks, and raises TypeError (ModelFields.ItemCreatesRaise); its reservation also meets ReserveIn's ValueError (Findings).
- ReserveComponents: as written no component reservation is ever granted, because of ReserveIn's ValueError (Findings).
- ReserveBundle: as written every bundle falls short at its first component, because of ReserveIn's ValueError (Findings).
- ProcessBundleItem: as written both item creates pass `name` and raise TypeError (ModelFields.ItemCreatesRaise, Findings). Removing `name` would not be enough: the bundle item is created without the NOT NULL product and total_price (orders/enhanced_models.py:384-389), so it would raise IntegrityError (ModelFields.ItemCreatesMissRequired). The model stores it with no product and does not promise that the database accepts it.
- ProcessOrderItem: as written every item create passes `name` and raises TypeError, so no line is stored (ModelFields.ItemCreatesRaise, Findings). Removing `name` would not be enough for an unmapped line either: its item is created without the NOT NULL product and total_price, so it would raise IntegrityError; a mapped line's total_price is filled by save() only when the unit price and quantity are both non-zero (orders/enhanced_models.py:419-422, ModelFields.ItemCreatesMissRequired). The model stores such items and does not promise that the database accepts them.
- ReserveForLine: as written the level filter on `available_quantity` raises FieldError, and the reservation create passes `reserved_quantity` and an EnhancedOrder for an `orders.Order` key (ModelFields.ViewReservationRaises, Findings).
- ReservedAtLargest: states the intended reservation; as written no reservation is made, for the reasons given for ReserveForLine.
- ReserveLineStock: the intended candidate loop; as written its filter raises FieldError before the loop (ModelFields.ViewReservationRaises).
- ReserveStockForOrder: as written the first line's candidate query raises FieldError when it is iterated. Nothing in reserve_stock_for_order catches it, and the import view records it as that order's error (ModelFields.ViewReservationRaises, Findings).
- ImportedItems: as written the mapping filter names `external_sku`, which SKUMapping lacks, and raises FieldError (ModelFields.ViewLinesRaise).
- NewImportedOrder: as written the order create passes seven keywords EnhancedOrder lacks and raises TypeError (ModelFields.ViewOrderCreateRaises).
- AddImportedLines: as written the item create passes `external_sku` and raises TypeError (ModelFields.ViewLinesRaise).
- CreateImportedOrder: as written it raises at the order create, before anything is stored (ModelFields.ViewOrderCreateRaises).
- ImportOne: as written every order whose external id is new fails with TypeError, not only one whose order number is taken (OrderViews.ImportOneAsWritten, Findings).
- ImportChannelOrders: as written imported_count is always 0, and every new order is reported as an error (OrderViews.ImportAsWrittenImportsNothing, Findings).
- UpdateOne: as written the movement create passes `warehouse`, `quantity_change` and `reason`, which StockMovement lacks, and raises TypeError; the entry reports an error and no count is stored (OrderViews.UpdateOneAsWritten, ModelFields.AdjustmentRaises, Findings).
- UpdateStockLevels: as written no entry succeeds and no movement is stored (OrderViews.UpdateAsWrittenStoresNothing, Findings).
- HandleShopifyWebhook: an orders/create webhook changes no table. As written import_order_from_channel's order create raises TypeError (ModelFields.ServiceOrderCreateRaises), its atomic block rolls back, and the handler swallows the error. The ERROR entry that import_order_from_channel writes to ChannelSyncLog is not modelled.
- HandleWooWebhook: the same holds for order.created.
- StockLedger.Release: states the intended release. As written the RELEASE movement reads `reservation.order.order_number`, which orders.Order lacks, so the AttributeError rolls the counter update back, the error is swallowed and no reservation is ever released (StockLedger.ReleaseAsWritten, ModelFields.MovementReferenceRaises, Findings).
- StockLedger.ReleaseFound: states the intended release; as written nothing changes (StockLedger.ReleaseAsWrittenReleasesNothing).
- StockLedger.ReserveThenReleaseRestores: states the intended round trip; as written neither the reservation nor the release takes effect (Findings).
- StockLedger.ReleaseKeepsShifted: states the intended counter move; as written it is rolled back (StockLedger.ReleaseAsWritten).
- StockLedger.Fulfill: states the intended fulfil. As written the OUT movement reads the same missing `order_number`, so the counter update rolls back, the error is swallowed and the item stays unfulfilled with its reservation (StockLedger.FulfillAsWritten, Findings).
- StockLedger.FulfillEffect: states the intended effect; as written nothing changes (StockLedger.FulfillAsWrittenFulfillsNothing).
- StockService.ReleaseReservation: the intended release in place; as written the ledger and items are left unchanged (StockLedger.ReleaseAsWritten).
- StockService.FulfillOrderItem: the intended fulfil in place; as written the ledger and items are left unchanged (StockLedger.FulfillAsWritten).
- OrderService.ReleaseAcquired: the intended rollback of a failed bundle; as written each release rolls back on the missing `order_number` (StockLedger.ReleaseAsWritten).
- Webhooks.ReleaseEach: the intended fold of releases; as written it leaves everything unchanged (Webhooks.ReleaseEachAsWritten).
- Webhooks.ReleaseEachRemoves: states the intended deletions; as written no reservation is deleted (Webhooks.ReleaseEachAsWritten).
- Webhooks.CancelReleasesAll: states the intended cancel; as written the order's items keep their reservations (Webhooks.CancelAsWrittenKeepsReservations).
- Webhooks.ReleaseOrderReservations: the intended loop in place; as written it changes nothing.
- Webhooks.CancelExternalOrder: as written the order is still saved CANCELLED, but none of its reservations is released (Webhooks.CancelAsWrittenKeepsReservations).
- Webhooks.HandleShopifyWebhook: on orders/cancelled, as written the order is saved CANCELLED and its reservations are kept, as for CancelExternalOrder.
- Webhooks.HandleWooWebhook: on order.deleted, the same holds as for HandleShopifyWebhook.
- Automation.ApplyAutomationRules: states the intended loop; as written no rule is applied, because the condition check is looked up on the wrong class (Automation.ApplyRulesAsWritten, Findings). AutomationService's check also reads `rule.conditions`, while the model field is `trigger_conditions` (orders/enhanced_models.py:243); the model reads the conditions from that field.
- Logging is out: the file processing logger and log lines. The one effect kept is that the ERROR log of a failed row stores the raw row in a JSON column, so its insert raises where the row's own insert did (UploadSessions.Aborts). `ReminderLog` records keep their status, e-mail flag and message, but not their timings.
- Reminders.ReminderStore.Schedule: the task is queued under the function path 'notifications.services.execute_reminder' (notifications/services.py:92 and 147), but execute_reminder is a static method of ReminderService (lines 106-107), not a module-level function, so the queue cannot resolve the path and no scheduled reminder ever runs. The model records only the task's name and time, and ExecuteReminder models the run as if the path resolved.
- Reminders.Update: the update serializer also accepts email_subject, email_body and metadata (notifications/serializers.py:187-195). These fields are not modelled, so an update cannot express them.
- Reminders.DefaultSendEmail: the Reminder model is not in the repository, so the default of send_email is not known from the source. The model takes it to be true.
- ProductImport.ImportOne: the category and supplier rows that get_or_create makes on the way (file_processing/services.py:515-524 and 569-589) are not modelled. Only the linked name is kept on the product.
- InventoryViews.AlertsFor: the message texts of the alerts (inventory/views.py:183-217) are not modelled. Only the product, the type, the priority and the resolved flag are.
- UploadSessions.StartImport: the schedule_batch_import_task call (file_processing/views.py:158) is not modelled. The job it queues is modelled by ImportTasks.
- Reminders.ReminderStore.ExecuteReminder: the exception path that marks a reminder FAILED and logs the error is not modelled; mail delivery failure is the only failure modelled.
- PosTasks.PerformPosSync: exceptions other than a missing integration or sync log are not modelled. Neither is the failure of the error handler itself, which the job swallows.
- The model keeps only the sync-log record that `trigger_sync` creates. The rest of that function is out.
- UploadSessions.Percent: the float division is modelled as exact floor division. The two agree except where float rounding changes the integer part.
- UploadSessions.Rate: the float percentage is an exact real.
- An empty or NaN cell is the single value `Missing`. The various NaN and None spellings pandas produces are not told apart.
- ProductImport.LinkedName: Supplier.name is not unique (inventory/models.py:39). When two suppliers already share the stripped name, get_or_create raises MultipleObjectsReturned, import_products counts an error and the product stays unprocessed. The model links the name as if it were unique. Category.name is unique, so categories are not affected.
- ProductImport.ImportProducts: the eligible products are taken in the order the session stores them. The queryset follows ExtractedProduct's ordering by row_number (file_processing/models.py:113). The two agree for one pass over a sheet, whose rows are stored with rising numbers, but not after a retried session stored a second pass, whose equal row numbers the database may order either way.
- The persistence-only parts are out: the purchasing serializers, the account views and JWT issue, and the plain create/read/update/delete views.
- Texts: stripping and lower-casing cover ASCII only. Unicode case folding and Unicode white space are not modelled.
- Digits and word characters are ASCII only. Python's `\d`, `\b`, `str.isdigit`, `int()`, `float()` and `Decimal()` also accept other Unicode digits. This affects Seqs.IsDigit, Texts.IsWordChar, the `\b\d{n}\b` scan in ImageText, Backfill.Digits, the FileRows number readers and Purchasing.ParseInt.
- FileRows.TruncatedText: float() is read as exact decimal arithmetic. Python's float() also takes underscores between digits ("1_000"), which the model refuses. A finite literal beyond the double range ("1e400") becomes inf there, so int() raises OverflowError where the model gives a number. A value above 2^53 is rounded to a double before int() truncates it, where the model keeps every digit.
- The `Reminder` model class is not in the repository. Its status and frequency values are taken from the services and the admin that use them.

## Findings

| source | as written | input that shows it | evidently intended | confidence | as-written member | corrected member |
|---|---|---|---|---|---|---|
| file_processing/tasks.py:55-88 | the batch job calls the importer without the selected product ids, while the view (file_processing/views.py:133-155) counts only the selected products as its total | a session with eligible extracted products 1 and 2 and the selection [1]: the total is 1, the job imports 2 | the job imports exactly the selection, so processed items equal the announced total | not executed | ImportTasks.BatchIgnoresSelection | ImportTasks.BatchAccounts |
| notifications/services.py:136-155 | the run computes the next date from the target date, which is never moved, so a recurring reminder's second run finds no later date and completes it | a weekly recurring reminder with a target date, run at its reminder time and again at the next date | each run moves the target on one step, so the reminder keeps recurring | not executed | Reminders.RecurrenceStopsAfterOne | Reminders.ReminderStore.ExecuteReminderAdvancing |
| purchasing/models.py:56-58 | in `__str__`, the conditional binds looser than `or`, so an unsaved order shows "PO" even when it carries a po_number | an unsaved order with po_number "PO-2025-01" | the po_number when set, else "PO#" and the id, else "PO" | not executed | Purchasing.OrderNumberDiffers | Purchasing.OrderNumber |
| pos_integration/tasks.py:66-84 | the scheduler queues every automatic sync with None as its sync log id, so the job's log lookup (line 17) fails and no automatic sync ever runs | an ACTIVE integration with auto-sync on that has never synced | each automatic sync gets a sync log first, as a manual sync does | not executed | PosTasks.AutoSyncWithoutLog | PosTasks.ScheduleAutoSyncsWithLogs |
| orders/services.py:376-382 | reserve_stock creates the StockReservation with an EnhancedOrder, but the reservation's order foreign key points at orders.Order, so the create raises ValueError; the atomic block rolls back and None is returned | any call with 0 <= quantity <= available, for example a product with 5 available and a request for 1 | a reservation is created and the units move to reserved | not executed | StockLedger.ReserveAsWrittenNeverReserves | StockLedger.ReserveIn |
| orders/services.py:208-305 | every EnhancedOrderItem create passes `name=`, which the item model does not declare, so each raises TypeError and no line is stored | any order line, mapped or not | the item is created without a name and with a product and a total price; the unmapped and bundle creates lack both, which the NOT NULL columns (orders/enhanced_models.py:384-389) would refuse (ModelFields.ItemCreatesMissRequired), so dropping `name` alone is not the whole fix | not executed | ModelFields.ItemCreatesRaise | OrderService.ProcessOrderItem |
| orders/enhanced_views.py:280-310 | the order create passes customer, address, payment and raw-data keywords EnhancedOrder does not declare, and the lines use `external_sku`, which neither SKUMapping nor EnhancedOrderItem has | a request with one order whose external id is new | the order and its mapped lines are created and counted as imported | not executed | OrderViews.ImportAsWrittenImportsNothing | OrderViews.ImportOne |
| orders/enhanced_views.py:121-137 | the counts are assigned to non-field attributes, and the movement create passes `warehouse`, `quantity_change` and `reason`, which StockMovement does not declare | an entry naming one of the user's stock levels | the counts are stored, an ADJUSTMENT movement is logged and the entry succeeds | not executed | OrderViews.UpdateAsWrittenStoresNothing | OrderViews.UpdateOne |
| orders/enhanced_views.py:341-361 | the level filter names `available_quantity` and the reservation create `reserved_quantity`; neither is a field of its model | an order with one line whose product has stock | the largest candidate level is reserved for the line | not executed | ModelFields.ViewReservationRaises | OrderViews.ReserveStockForOrder |
| orders/services.py:336-340 | the loop calls `MultiChannelOrderService._evaluate_rule_conditions`, which that class does not define (AutomationService does, line 564), so every rule raises AttributeError, which the except clause logs | an active ORDER_PLACED rule without conditions that sets the priority to URGENT on a NORMAL order | the rule's conditions are evaluated and its actions run | not executed | Automation.AsWrittenIgnoresMatchingRule | Automation.ApplyAutomationRules |
| orders/services.py:419-435 | release_reservation's movement reads `reservation.order.order_number`; the reservation's order is an orders.Order, which has no order_number, so AttributeError rolls the counter update back and the except clause swallows it | a reservation of 2 units whose product and warehouse have a stock level | the units go back to available, the RELEASE movement is logged and the reservation is deleted | not executed | StockLedger.ReleaseAsWrittenReleasesNothing | StockLedger.Release |
| orders/services.py:455-475 | fulfill_order_item's movement reads the same missing order_number, so the update rolls back, the error is swallowed and the item stays as it was | an item holding a reservation whose stock level exists | the reserved units leave the stock, the item becomes FULFILLED and the reservation is deleted | not executed | StockLedger.FulfillAsWrittenFulfillsNothing | StockLedger.Fulfill |
