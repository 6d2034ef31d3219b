/** The order views of orders/enhanced_views.py that change stock: the greedy
 *  multi-warehouse reservation of reserve_stock_for_order, the import loop of
 *  import_channel_orders and the bulk counter edit of update_stock_levels. */
module OrderViews {
  import opened Wrappers
  import opened Seqs
  import InventoryModels
  import opened OrderModels
  import opened EnhancedModels
  import opened StockLedger
  import opened OrderTables
  import OrderService

  /** The warehouses reserve_stock_for_order considers for a line: those of the
   *  order's supermarket holding a record for the product with at least the line's
   *  quantity available, the most available first (ties in table order). */
  function Candidates(levels: map<LevelKey, StockLevel>, warehouses: seq<Warehouse>, sm: SupermarketId,
                      product: ProductId, quantity: int): seq<Warehouse>
  {
    SortBy(Filter(warehouses, (w: Warehouse) => w.supermarket == sm && (product, w.id) in levels &&
                                                levels[(product, w.id)].available >= quantity),
           (w: Warehouse) => -LevelAt(levels, (product, w.id)).available)
  }

  /** The candidates are exactly the qualifying warehouses, largest stock first. */
  lemma {:induction false} CandidatesSelected(levels: map<LevelKey, StockLevel>, warehouses: seq<Warehouse>, sm: SupermarketId,
                           product: ProductId, quantity: int)
    ensures var c := Candidates(levels, warehouses, sm, product, quantity);
            forall w :: w in c <==> w in warehouses && w.supermarket == sm && (product, w.id) in levels &&
                                    levels[(product, w.id)].available >= quantity
    ensures var c := Candidates(levels, warehouses, sm, product, quantity);
            forall i, j :: 0 <= i < j < |c| ==>
              LevelAt(levels, (product, c[i].id)).available >= LevelAt(levels, (product, c[j].id)).available
  {
    var p := (w: Warehouse) => w.supermarket == sm && (product, w.id) in levels &&
                               levels[(product, w.id)].available >= quantity;
    var key := (w: Warehouse) => -LevelAt(levels, (product, w.id)).available;
    var f := Filter(warehouses, p);
    var c := SortBy(f, key);
    forall w ensures w in c <==> w in f {
      assert w in c <==> w in multiset(c);
      assert w in f <==> w in multiset(f);
    }
    forall i, j | 0 <= i < j < |c|
      ensures LevelAt(levels, (product, c[i].id)).available >= LevelAt(levels, (product, c[j].id)).available
    {
      assert key(c[i]) <= key(c[j]);
    }
  }

  /** One reservation of `quantity` units at warehouse `w`: the units move from
   *  available to reserved and an active reservation expiring a day later is
   *  recorded; no stock movement is logged. */
  function Grant(l: Ledger, product: ProductId, w: WarehouseId, quantity: int, order: OrderId, now: int): Ledger
    requires (product, w) in l.levels
  {
    l.(levels := l.levels[(product, w) := ShiftLevel(l.levels[(product, w)], quantity)],
       reservations := l.reservations[l.nextReservationId :=
                         Reservation(product, w, order, quantity, ReservationActive, now + ReservationLifetime)],
       nextReservationId := l.nextReservationId + 1)
  }

  /** The outcome for one line: the ledger, and the units still missing. */
  datatype LineOutcome = LineOutcome(ledger: Ledger, remaining: int)

  /** What reserve_stock_for_order does for one line. Every candidate covers the
   *  whole quantity, so the first reservation already takes it all: a line gets at
   *  most one reservation, at the warehouse with the most stock, or none (and is
   *  then short by its full quantity) when no warehouse has enough. */
  function ReserveForLine(l: Ledger, warehouses: seq<Warehouse>, sm: SupermarketId, item: OrderItem,
                          order: OrderId, now: int): (r: LineOutcome)
    ensures r.remaining == 0 || r.remaining == item.quantity
    ensures r.remaining > 0 <==>
              item.quantity > 0 &&
              (item.product.None? || |Candidates(l.levels, warehouses, sm, item.product.value, item.quantity)| == 0)
    ensures r.ledger.movements == l.movements
    ensures r.ledger == l || r.ledger.nextReservationId == l.nextReservationId + 1
    ensures forall k :: k in l.levels <==> k in r.ledger.levels
    ensures forall k :: k in l.levels ==>
              r.ledger.levels[k].available + r.ledger.levels[k].reserved == l.levels[k].available + l.levels[k].reserved
  {
    if item.product.None? || item.quantity <= 0 then LineOutcome(l, item.quantity)
    else
      var c := Candidates(l.levels, warehouses, sm, item.product.value, item.quantity);
      if |c| == 0 then LineOutcome(l, item.quantity)
      else
        CandidatesSelected(l.levels, warehouses, sm, item.product.value, item.quantity);
        assert c[0] in c;
        LineOutcome(Grant(l, item.product.value, c[0].id, item.quantity, order, now), 0)
  }

  /** The reservation a line gets is made where the most units are available, and
   *  it never drives that count below zero. */
  lemma {:induction false} ReservedAtLargest(l: Ledger, warehouses: seq<Warehouse>, sm: SupermarketId, item: OrderItem,
                          order: OrderId, now: int)
    requires ReserveForLine(l, warehouses, sm, item, order, now).ledger != l
    ensures item.product.Some? && item.quantity > 0
    ensures var r := ReserveForLine(l, warehouses, sm, item, order, now).ledger;
            var res := r.reservations[l.nextReservationId];
            l.nextReservationId in r.reservations && res.quantity == item.quantity && res.order == order &&
            res.product == item.product.value &&
            (res.product, res.warehouse) in r.levels && r.levels[(res.product, res.warehouse)].available >= 0 &&
            forall w :: w in warehouses && w.supermarket == sm && (res.product, w.id) in l.levels ==>
              LevelAt(l.levels, (res.product, w.id)).available <= LevelAt(l.levels, (res.product, res.warehouse)).available
  {
    var p := item.product.value;
    var c := Candidates(l.levels, warehouses, sm, p, item.quantity);
    CandidatesSelected(l.levels, warehouses, sm, p, item.quantity);
    assert c[0] in c;
    forall w | w in warehouses && w.supermarket == sm && (p, w.id) in l.levels
      ensures LevelAt(l.levels, (p, w.id)).available <= LevelAt(l.levels, (p, c[0].id)).available
    {
      if l.levels[(p, w.id)].available >= item.quantity {
        var j :| 0 <= j < |c| && c[j] == w;
        if j > 0 {
          assert LevelAt(l.levels, (p, c[0].id)).available >= LevelAt(l.levels, (p, c[j].id)).available;
        }
      }
    }
  }

  /** The ledger after reserve_stock_for_order has gone through `items` (those of
   *  other orders are passed over), and the shortage note of the last short line. */
  datatype OrderOutcome = OrderOutcome(ledger: Ledger, note: Option<ShortageNote>)

  function ReserveForLines(l: Ledger, warehouses: seq<Warehouse>, sm: SupermarketId, items: seq<OrderItem>,
                           order: OrderId, now: int): OrderOutcome
  {
    if |items| == 0 then OrderOutcome(l, None)
    else
      var before := ReserveForLines(l, warehouses, sm, items[..|items| - 1], order, now);
      var item := items[|items| - 1];
      if item.order != order then before
      else
        var r := ReserveForLine(before.ledger, warehouses, sm, item, order, now);
        OrderOutcome(r.ledger, if r.remaining > 0 then Some(ShortageNote(item.product, r.remaining)) else before.note)
  }

  /** Some line of the order asks for `quantity` units of `product`. */
  predicate HasLine(items: seq<OrderItem>, order: OrderId, product: Option<ProductId>, quantity: int)
  {
    exists k :: 0 <= k < |items| && items[k].order == order && items[k].product == product && items[k].quantity == quantity
  }

  /** Over a whole order: every counter keeps `available + reserved`, no record
   *  appears or disappears, no movement is logged, each line gets at most one
   *  reservation, and a shortage note names a line of the order and its full
   *  quantity. */
  lemma {:induction false} ReserveForLinesConserves(l: Ledger, warehouses: seq<Warehouse>, sm: SupermarketId,
                                                    items: seq<OrderItem>, order: OrderId, now: int)
    ensures var r := ReserveForLines(l, warehouses, sm, items, order, now);
            (forall k :: k in l.levels <==> k in r.ledger.levels) &&
            (forall k :: k in l.levels ==>
               r.ledger.levels[k].available + r.ledger.levels[k].reserved == l.levels[k].available + l.levels[k].reserved) &&
            r.ledger.movements == l.movements &&
            l.nextReservationId <= r.ledger.nextReservationId <= l.nextReservationId + |items|
    ensures var r := ReserveForLines(l, warehouses, sm, items, order, now);
            r.note.Some? ==> r.note.value.shortBy > 0 && HasLine(items, order, r.note.value.product, r.note.value.shortBy)
  {
    if |items| > 0 {
      var front := items[..|items| - 1];
      ReserveForLinesConserves(l, warehouses, sm, front, order, now);
      var r := ReserveForLines(l, warehouses, sm, items, order, now);
      var b := ReserveForLines(l, warehouses, sm, front, order, now);
      if r.note.Some? && r.note == b.note {
        var k :| 0 <= k < |front| && front[k].order == order && front[k].product == b.note.value.product &&
                 front[k].quantity == b.note.value.shortBy;
        assert items[k] == front[k];
      }
    }
  }

  /** One pass of the candidate loop: reserve `quantity` units at warehouse `w`. */
  method GrantAt(db: OrderDatabase, product: ProductId, w: WarehouseId, quantity: int, order: OrderId, now: int)
    requires db.Valid() && (product, w) in db.levels
    modifies db`levels, db`reservations, db`nextReservationId
    ensures db.Valid()
    ensures db.Ledger() == Grant(old(db.Ledger()), product, w, quantity, order, now)
  {
    var key := (product, w);
    var level := db.levels[key];
    db.reservations := db.reservations[db.nextReservationId :=
                         Reservation(product, w, order, quantity, ReservationActive, now + ReservationLifetime)];
    db.nextReservationId := db.nextReservationId + 1;
    db.levels := db.levels[key := level.(reserved := level.reserved + quantity, available := level.available - quantity)];
  }

  /** reserve_stock_for_order for one line: walk the candidates, reserving
   *  `min(remaining, available)` at each, until nothing remains. */
  method ReserveLineStock(db: OrderDatabase, sm: SupermarketId, item: OrderItem, order: OrderId, now: int)
    returns (remaining: int)
    requires db.Valid()
    modifies db`levels, db`reservations, db`nextReservationId
    ensures db.Valid()
    ensures db.Ledger() == ReserveForLine(old(db.Ledger()), db.warehouses, sm, item, order, now).ledger
    ensures remaining == ReserveForLine(old(db.Ledger()), db.warehouses, sm, item, order, now).remaining
  {
    remaining := item.quantity;
    if item.product.None? {
      return;
    }
    var product := item.product.value;
    var candidates := Candidates(db.levels, db.warehouses, sm, product, item.quantity);
    CandidatesSelected(db.levels, db.warehouses, sm, product, item.quantity);
    ghost var l0 := db.Ledger();
    var i := 0;
    while i < |candidates|
      invariant 0 <= i <= |candidates|
      invariant db.Valid()
      invariant i == 0 ==> remaining == item.quantity && db.Ledger() == l0
      invariant i > 0 ==> item.quantity > 0 && remaining == 0 &&
                          db.Ledger() == Grant(l0, product, candidates[0].id, item.quantity, order, now)
    {
      if remaining <= 0 {
        break;
      }
      assert i == 0 && db.Ledger() == l0;
      var w := candidates[i];
      assert w in candidates;
      var available := db.levels[(product, w.id)].available;
      assert available >= remaining;
      var reserveQuantity := if remaining < available then remaining else available;
      assert reserveQuantity == item.quantity;
      GrantAt(db, product, w.id, reserveQuantity, order, now);
      remaining := remaining - reserveQuantity;
      i := i + 1;
    }
  }

  /** reserve_stock_for_order: every line of the order in item-table order; each
   *  short line puts the order ON_HOLD with a note naming the product and the
   *  shortfall (the last short line's note is the one kept). An order with no short
   *  line is left untouched. */
  method ReserveStockForOrder(db: OrderDatabase, index: nat, now: int)
    requires db.Valid() && index < |db.orders|
    modifies db`levels, db`reservations, db`nextReservationId, db`orders
    ensures db.Valid()
    ensures var order := old(db.orders[index]);
            var r := ReserveForLines(old(db.Ledger()), db.warehouses, order.supermarket, db.items, order.id, now);
            db.Ledger() == r.ledger &&
            db.orders == old(db.orders)[index := if r.note.Some? then order.(status := OnHold, notes := r.note)
                                                 else order]
  {
    var order := db.orders[index];
    ghost var l0 := db.Ledger();
    var note: Option<ShortageNote> := None;
    var j := 0;
    while j < |db.items|
      invariant j <= |db.items|
      invariant db.Valid()
      invariant db.orders == old(db.orders)
      invariant ReserveForLines(l0, db.warehouses, order.supermarket, db.items[..j], order.id, now)
                == OrderOutcome(db.Ledger(), note)
    {
      assert db.items[..j + 1][..j] == db.items[..j];
      var item := db.items[j];
      if item.order == order.id {
        var remaining := ReserveLineStock(db, order.supermarket, item, order.id, now);
        if remaining > 0 {
          note := Some(ShortageNote(item.product, remaining));
        }
      }
      j := j + 1;
    }
    assert db.items[..|db.items|] == db.items;
    if note.Some? {
      db.orders := db.orders[index := order.(status := OnHold, notes := note)];
    }
  }

  /** One line of an imported order: a key the payload lacks is None. */
  datatype ImportLine = ImportLine(sku: Option<string>, quantity: Option<int>, unitPrice: Option<int>)

  /** One order of an import request. */
  datatype ImportOrder = ImportOrder(externalOrderId: Option<string>, customerEmail: Option<string>,
                                     totalAmount: Option<int>, lines: seq<ImportLine>)

  /** What happened to one order of the request. */
  datatype ImportOutcome = Skipped | Created(id: OrderId) | Failed(externalOrderId: Option<string>)

  /** The response: 404 for a channel that is missing or not the user's, else the
   *  imported order ids (their count is `imported_count`) and one error entry per
   *  failed order. */
  datatype ImportResponse = ChannelNotFound | Imported(orders: seq<OrderId>, errors: seq<Option<string>>)

  /** An order of the channel with this external id exists (a missing id matches an
   *  order without one, as the IS NULL filter does). */
  predicate ExternalExists(orders: seq<EnhancedOrder>, channel: ChannelId, externalOrderId: Option<string>)
  {
    exists i :: 0 <= i < |orders| && orders[i].channel == channel && orders[i].externalOrderId == externalOrderId
  }

  /** No two orders of a channel share an external id. */
  predicate ExternalIdsUnique(orders: seq<EnhancedOrder>)
  {
    forall i, j :: 0 <= i < j < |orders| ==>
      !(orders[i].channel == orders[j].channel && orders[i].externalOrderId == orders[j].externalOrderId)
  }

  /** Order numbers are unique in the table, so an insert that repeats one fails. */
  predicate NumberTaken(orders: seq<EnhancedOrder>, number: string)
  {
    exists i :: 0 <= i < |orders| && orders[i].orderNumber == number
  }

  /** The item an imported line becomes when its SKU is mapped on the channel. */
  function ImportedItem(m: SkuMapping, order: OrderId, line: ImportLine): OrderItem
  {
    OrderItem(0, order, Some(m.product), None, line.sku.GetOr(""), "", line.quantity.GetOr(1), line.unitPrice.GetOr(0),
              None, None, ItemPending)
  }

  /** The items the lines of an imported order become, numbered from `nextId`:
   *  lines whose SKU has no mapping on the channel are dropped. */
  function ImportedItems(mappings: map<(ChannelId, string), SkuMapping>, channel: ChannelId, order: OrderId,
                         lines: seq<ImportLine>, nextId: ItemId): (r: seq<OrderItem>)
    ensures |r| <= |lines|
    ensures forall i :: 0 <= i < |r| ==> r[i].order == order && r[i].product.Some? && r[i].reservation.None?
  {
    if |lines| == 0 then []
    else
      var front := ImportedItems(mappings, channel, order, lines[..|lines| - 1], nextId);
      var line := lines[|lines| - 1];
      if line.sku.Some? && (channel, line.sku.value) in mappings then
        front + [SaveItem(ImportedItem(mappings[(channel, line.sku.value)], order, line).(id := nextId + |front|))]
      else front
  }

  /** The order row import_channel_orders creates; its save fills the order number
   *  and placed_at from the clock. */
  function NewImportedOrder(id: OrderId, channel: Channel, data: ImportOrder, nowSeconds: nat): (r: EnhancedOrder)
    ensures r.id == id && r.channel == channel.id && r.supermarket == channel.supermarket
    ensures r.externalOrderId == data.externalOrderId && r.status == Pending
    ensures r.orderNumber == GeneratedOrderNumber(nowSeconds) && r.placedAt == Some(nowSeconds as int)
  {
    SaveOrder(EnhancedOrder(id, "", data.externalOrderId, channel.supermarket, channel.id, Pending, PaymentPending,
                            FulfillmentPending, data.totalAmount.GetOr(0), data.customerEmail, None, None, [], None,
                            None), nowSeconds)
  }

  /** The item loop of import_channel_orders: one item per mapped line. */
  method AddImportedLines(db: OrderDatabase, channel: Channel, order: OrderId, lines: seq<ImportLine>)
    requires db.Valid()
    modifies db`items, db`nextItemId
    ensures db.Valid()
    ensures db.items == old(db.items) + ImportedItems(db.skuMappings, channel.id, order, lines, old(db.nextItemId))
    ensures db.nextItemId == old(db.nextItemId) + |ImportedItems(db.skuMappings, channel.id, order, lines, old(db.nextItemId))|
  {
    ghost var added: seq<OrderItem> := [];
    var i := 0;
    while i < |lines|
      invariant i <= |lines|
      invariant db.Valid()
      invariant added == ImportedItems(db.skuMappings, channel.id, order, lines[..i], old(db.nextItemId))
      invariant db.items == old(db.items) + added
      invariant db.nextItemId == old(db.nextItemId) + |added|
    {
      assert lines[..i + 1][..i] == lines[..i];
      var line := lines[i];
      if line.sku.Some? && (channel.id, line.sku.value) in db.skuMappings {
        var item := ImportedItem(db.skuMappings[(channel.id, line.sku.value)], order, line);
        var saved := OrderService.AddItem(db, item);
        added := added + [saved];
      }
      i := i + 1;
    }
    assert lines[..|lines|] == lines;
  }

  /** The creation branch of one imported order: the order row, its mapped lines,
   *  and reserve_stock_for_order on it. */
  method CreateImportedOrder(db: OrderDatabase, channel: Channel, data: ImportOrder, nowSeconds: nat)
    returns (id: OrderId)
    requires db.Valid()
    modifies db`orders, db`nextOrderId, db`items, db`nextItemId, db`levels, db`reservations, db`nextReservationId
    ensures db.Valid()
    ensures var o := NewImportedOrder(old(db.nextOrderId), channel, data, nowSeconds);
            var added := ImportedItems(db.skuMappings, channel.id, o.id, data.lines, old(db.nextItemId));
            var r := ReserveForLines(old(db.Ledger()), db.warehouses, o.supermarket, old(db.items) + added, o.id,
                                     nowSeconds);
            id == o.id &&
            db.items == old(db.items) + added &&
            db.Ledger() == r.ledger &&
            db.orders == old(db.orders) + [if r.note.Some? then o.(status := OnHold, notes := r.note) else o]
    ensures |db.orders| == |old(db.orders)| + 1 && db.orders[..|old(db.orders)|] == old(db.orders)
    ensures db.orders[|old(db.orders)|].channel == channel.id
    ensures db.orders[|old(db.orders)|].externalOrderId == data.externalOrderId
  {
    var o := NewImportedOrder(db.nextOrderId, channel, data, nowSeconds);
    ghost var before := db.orders;
    db.orders := db.orders + [o];
    db.nextOrderId := db.nextOrderId + 1;
    AddImportedLines(db, channel, o.id, data.lines);
    ReserveStockForOrder(db, |db.orders| - 1, nowSeconds);
    id := o.id;
  }

  /** One order of the request: skipped when the channel already has an order with
   *  its external id; failed (nothing written) when the generated order number is
   *  already taken; otherwise created with its mapped lines and put through
   *  reserve_stock_for_order. */
  method ImportOne(db: OrderDatabase, channel: Channel, data: ImportOrder, nowSeconds: nat)
    returns (outcome: ImportOutcome)
    requires db.Valid()
    modifies db`orders, db`nextOrderId, db`items, db`nextItemId, db`levels, db`reservations, db`nextReservationId
    ensures db.Valid()
    ensures outcome.Skipped? <==> ExternalExists(old(db.orders), channel.id, data.externalOrderId)
    ensures outcome.Failed? <==>
              !ExternalExists(old(db.orders), channel.id, data.externalOrderId) &&
              NumberTaken(old(db.orders), GeneratedOrderNumber(nowSeconds))
    ensures outcome.Failed? ==> outcome.externalOrderId == data.externalOrderId
    ensures !outcome.Created? ==>
              db.orders == old(db.orders) && db.items == old(db.items) && db.Ledger() == old(db.Ledger())
    ensures outcome.Created? ==>
              var o := NewImportedOrder(old(db.nextOrderId), channel, data, nowSeconds);
              var added := ImportedItems(db.skuMappings, channel.id, o.id, data.lines, old(db.nextItemId));
              var r := ReserveForLines(old(db.Ledger()), db.warehouses, o.supermarket, old(db.items) + added, o.id,
                                       nowSeconds);
              outcome.id == o.id &&
              db.items == old(db.items) + added &&
              db.Ledger() == r.ledger &&
              db.orders == old(db.orders) + [if r.note.Some? then o.(status := OnHold, notes := r.note) else o]
    ensures outcome.Created? ==>
              |db.orders| == |old(db.orders)| + 1 && db.orders[..|old(db.orders)|] == old(db.orders) &&
              db.orders[|old(db.orders)|].channel == channel.id &&
              db.orders[|old(db.orders)|].externalOrderId == data.externalOrderId
    ensures ExternalExists(db.orders, channel.id, data.externalOrderId) || outcome.Failed?
    ensures ExternalIdsUnique(old(db.orders)) ==> ExternalIdsUnique(db.orders)
  {
    if exists i :: 0 <= i < |db.orders| && db.orders[i].channel == channel.id &&
                   db.orders[i].externalOrderId == data.externalOrderId {
      return Skipped;
    }
    if exists i :: 0 <= i < |db.orders| && db.orders[i].orderNumber == GeneratedOrderNumber(nowSeconds) {
      return Failed(data.externalOrderId);
    }
    ghost var before := db.orders;
    var id := CreateImportedOrder(db, channel, data, nowSeconds);
    outcome := Created(id);
    assert db.orders[|before|].channel == channel.id && db.orders[|before|].externalOrderId == data.externalOrderId;
    forall i, j | 0 <= i < j < |db.orders| && ExternalIdsUnique(before)
      ensures !(db.orders[i].channel == db.orders[j].channel && db.orders[i].externalOrderId == db.orders[j].externalOrderId)
    {
      assert db.orders[i] == before[i];
      if j < |before| {
        assert db.orders[j] == before[j];
      }
    }
  }

  /** The ids of the created orders, in request order. */
  function CreatedIds(outcomes: seq<ImportOutcome>): (r: seq<OrderId>)
    ensures |r| <= |outcomes|
  {
    if |outcomes| == 0 then []
    else
      var last := outcomes[|outcomes| - 1];
      CreatedIds(outcomes[..|outcomes| - 1]) + (if last.Created? then [last.id] else [])
  }

  /** The error entries of the failed orders, in request order. */
  function FailedIds(outcomes: seq<ImportOutcome>): (r: seq<Option<string>>)
    ensures |r| <= |outcomes|
  {
    if |outcomes| == 0 then []
    else
      var last := outcomes[|outcomes| - 1];
      FailedIds(outcomes[..|outcomes| - 1]) + (if last.Failed? then [last.externalOrderId] else [])
  }

  /** Every order of the request is skipped, created or failed, so the created and
   *  failed ones together never outnumber the request. */
  lemma {:induction false} OutcomesAccounted(outcomes: seq<ImportOutcome>)
    ensures |CreatedIds(outcomes)| + |FailedIds(outcomes)| + |Filter(outcomes, (o: ImportOutcome) => o.Skipped?)|
            == |outcomes|
  {
    if |outcomes| > 0 {
      OutcomesAccounted(outcomes[..|outcomes| - 1]);
    }
  }

  /** After the first `k` orders of the request: each is now present on the channel
   *  or was recorded as failed. */
  ghost predicate ImportProgress(orders: seq<EnhancedOrder>, channelId: ChannelId, data: seq<ImportOrder>,
                                 outcomes: seq<ImportOutcome>, k: nat)
    requires k <= |data| && |outcomes| == k
  {
    forall j :: 0 <= j < k ==> ExternalExists(orders, channelId, data[j].externalOrderId) || outcomes[j].Failed?
  }

  /** One turn of the import loop. */
  method ImportNext(db: OrderDatabase, channel: Channel, data: seq<ImportOrder>, clock: seq<nat>,
                    outcomes: seq<ImportOutcome>, k: nat)
    returns (outcome: ImportOutcome)
    requires db.Valid() && k < |data| == |clock| && |outcomes| == k
    requires channel.id in db.channels && db.channels[channel.id] == channel
    requires ImportProgress(db.orders, channel.id, data, outcomes, k)
    modifies db`orders, db`nextOrderId, db`items, db`nextItemId, db`levels, db`reservations, db`nextReservationId
    ensures db.Valid()
    ensures ImportProgress(db.orders, channel.id, data, outcomes + [outcome], k + 1)
    ensures ExternalIdsUnique(old(db.orders)) ==> ExternalIdsUnique(db.orders)
    ensures ExternalExists(old(db.orders), channel.id, data[k].externalOrderId) ==>
              outcome.Skipped? && db.orders == old(db.orders) && db.items == old(db.items) && db.Ledger() == old(db.Ledger())
  {
    ghost var ordersBefore := db.orders;
    outcome := ImportOne(db, channel, data[k], clock[k]);
    if outcome.Created? {
      ExternalExistsKept(ordersBefore, db.orders, channel.id, data);
    }
    ghost var outcomes' := outcomes + [outcome];
    forall j | 0 <= j < k + 1
      ensures ExternalExists(db.orders, channel.id, data[j].externalOrderId) || outcomes'[j].Failed?
    {
      if j < k {
        assert outcomes'[j] == outcomes[j];
      }
    }
  }

  /** import_channel_orders: the channel must exist and belong to one of the user's
   *  supermarkets, else 404 and nothing changes. Each order of the request is then
   *  imported on its own, at its own clock reading; a failing order is recorded in
   *  the errors and the loop goes on. Orders already imported are skipped, so no
   *  channel ever gets two orders with the same external id and a request whose
   *  orders all exist changes nothing. */
  method ImportChannelOrders(db: OrderDatabase, owned: set<SupermarketId>, channelId: ChannelId,
                             data: seq<ImportOrder>, clock: seq<nat>)
    returns (response: ImportResponse, outcomes: seq<ImportOutcome>)
    requires db.Valid() && |clock| == |data|
    modifies db`orders, db`nextOrderId, db`items, db`nextItemId, db`levels, db`reservations, db`nextReservationId
    ensures db.Valid()
    ensures response.ChannelNotFound? <==> channelId !in db.channels || db.channels[channelId].supermarket !in owned
    ensures response.ChannelNotFound? ==>
              outcomes == [] && db.orders == old(db.orders) && db.items == old(db.items) && db.Ledger() == old(db.Ledger())
    ensures response.Imported? ==>
              |outcomes| == |data| && response.orders == CreatedIds(outcomes) && response.errors == FailedIds(outcomes)
    ensures response.Imported? ==>
              forall k :: 0 <= k < |data| ==> ExternalExists(db.orders, channelId, data[k].externalOrderId) || outcomes[k].Failed?
    ensures ExternalIdsUnique(old(db.orders)) ==> ExternalIdsUnique(db.orders)
    ensures (forall k :: 0 <= k < |data| ==> ExternalExists(old(db.orders), channelId, data[k].externalOrderId)) ==>
              db.orders == old(db.orders) && db.items == old(db.items) && db.Ledger() == old(db.Ledger()) &&
              (response.Imported? ==> response.orders == [] && response.errors == [])
  {
    if channelId !in db.channels || db.channels[channelId].supermarket !in owned {
      return ChannelNotFound, [];
    }
    var channel := db.channels[channelId];
    ghost var orders0 := db.orders;
    ghost var allExist := forall k :: 0 <= k < |data| ==> ExternalExists(orders0, channelId, data[k].externalOrderId);
    outcomes := [];
    var k := 0;
    while k < |data|
      invariant k <= |data| && |outcomes| == k
      invariant db.Valid()
      invariant channelId in db.channels && db.channels[channelId] == channel
      invariant ExternalIdsUnique(orders0) ==> ExternalIdsUnique(db.orders)
      invariant ImportProgress(db.orders, channelId, data, outcomes, k)
      invariant allExist ==>
                  db.orders == orders0 && db.items == old(db.items) && db.Ledger() == old(db.Ledger()) &&
                  forall j :: 0 <= j < k ==> outcomes[j].Skipped?
    {
      assert allExist ==> ExternalExists(db.orders, channelId, data[k].externalOrderId);
      var outcome := ImportNext(db, channel, data, clock, outcomes, k);
      outcomes := outcomes + [outcome];
      k := k + 1;
    }
    AllSkipped(outcomes);
    response := Imported(CreatedIds(outcomes), FailedIds(outcomes));
  }

  /** Orders are only ever appended, so an external id present stays present. */
  lemma {:induction false} ExternalExistsKept(before: seq<EnhancedOrder>, after: seq<EnhancedOrder>, channel: ChannelId,
                           data: seq<ImportOrder>)
    requires |before| <= |after| && after[..|before|] == before
    ensures forall j :: 0 <= j < |data| && ExternalExists(before, channel, data[j].externalOrderId) ==>
              ExternalExists(after, channel, data[j].externalOrderId)
  {
    forall j | 0 <= j < |data| && ExternalExists(before, channel, data[j].externalOrderId)
      ensures ExternalExists(after, channel, data[j].externalOrderId)
    {
      var i :| 0 <= i < |before| && before[i].channel == channel && before[i].externalOrderId == data[j].externalOrderId;
      assert after[i] == after[..|before|][i];
    }
  }

  /** A request in which nothing was created or failed reports nothing. */
  lemma {:induction false} AllSkipped(outcomes: seq<ImportOutcome>)
    ensures (forall j :: 0 <= j < |outcomes| ==> outcomes[j].Skipped?) ==>
              CreatedIds(outcomes) == [] && FailedIds(outcomes) == []
  {
    if |outcomes| > 0 {
      AllSkipped(outcomes[..|outcomes| - 1]);
    }
  }

  /** One order of import_channel_orders as written (orders/enhanced_views.py:280-293):
   *  the order create passes customer, address, payment_method and raw_data keywords
   *  that EnhancedOrder does not declare (ModelFields.ViewOrderCreateRaises), so it
   *  raises TypeError before anything is written and the order lands in the errors.
   *  Only the skip of an order already imported still happens. */
  function ImportOneAsWritten(orders: seq<EnhancedOrder>, channel: ChannelId, data: ImportOrder): (r: ImportOutcome)
    ensures r.Skipped? <==> ExternalExists(orders, channel, data.externalOrderId)
    ensures !r.Created?
    ensures r.Failed? ==> r.externalOrderId == data.externalOrderId
  {
    if ExternalExists(orders, channel, data.externalOrderId) then Skipped else Failed(data.externalOrderId)
  }

  /** The import loop as written: nothing is ever created, so every order is judged
   *  against the orders the request started with. */
  function ImportAllAsWritten(orders: seq<EnhancedOrder>, channel: ChannelId, data: seq<ImportOrder>): (r: seq<ImportOutcome>)
    ensures |r| == |data|
  {
    if |data| == 0 then []
    else ImportAllAsWritten(orders, channel, data[..|data| - 1]) + [ImportOneAsWritten(orders, channel, data[|data| - 1])]
  }

  /** As written, a request imports nothing: the response lists no order, and every
   *  order not already on the channel is reported as an error, where the intended
   *  ImportOne creates it (unless its order number is taken). */
  lemma {:induction false} ImportAsWrittenImportsNothing(orders: seq<EnhancedOrder>, channel: ChannelId,
                                                         data: seq<ImportOrder>)
    ensures var r := ImportAllAsWritten(orders, channel, data);
            CreatedIds(r) == [] &&
            |FailedIds(r)| == |Filter(data, (d: ImportOrder) => !ExternalExists(orders, channel, d.externalOrderId))|
  {
    if |data| > 0 {
      var front := data[..|data| - 1];
      ImportAsWrittenImportsNothing(orders, channel, front);
      assert ImportAllAsWritten(orders, channel, data)[..|data| - 1] == ImportAllAsWritten(orders, channel, front);
    }
  }

  /** One entry of an update_stock_levels request: the record it names (absent when
   *  the entry has no id) and the counts it sets. */
  datatype StockUpdate = StockUpdate(id: Option<LevelKey>, available: Option<int>, damaged: Option<int>,
                                     quantityChange: Option<int>)

  /** One entry of the response: success, "Stock level not found" (missing, or not
   *  in a warehouse of the user's supermarkets), the error of an entry without an
   *  id, or (only in the code as written) the TypeError of the movement create for a
   *  record that was found. */
  datatype UpdateResult = Updated(id: LevelKey) | NotFound(missing: LevelKey) | NoId | MovementRejected(rejected: LevelKey)

  /** The record's warehouse belongs to one of the user's supermarkets. */
  predicate OwnedWarehouse(warehouses: seq<Warehouse>, owned: set<SupermarketId>, w: WarehouseId)
  {
    exists i :: 0 <= i < |warehouses| && warehouses[i].id == w && warehouses[i].supermarket in owned
  }

  /** The counters and movement ledger after the entries so far, with their results. */
  datatype UpdateState = UpdateState(levels: map<LevelKey, StockLevel>, movements: seq<InventoryModels.StockMovement>,
                                     results: seq<UpdateResult>)

  /** One entry: the record gets the given available and damaged counts, and an
   *  ADJUSTMENT movement records the declared change (default 0) with the
   *  available count before and after. */
  function UpdateOne(st: UpdateState, warehouses: seq<Warehouse>, owned: set<SupermarketId>, u: StockUpdate): (r: UpdateState)
    ensures |r.results| == |st.results| + 1 && r.results[..|st.results|] == st.results
    ensures r.results[|st.results|].Updated? <==>
              u.id.Some? && u.id.value in st.levels && OwnedWarehouse(warehouses, owned, u.id.value.1)
    ensures r.results[|st.results|].Updated? ==> r.results[|st.results|].id == u.id.value
    ensures r.results[|st.results|].NotFound? ==> u.id == Some(r.results[|st.results|].missing)
    ensures r.results[|st.results|].NoId? <==> u.id.None?
    ensures !r.results[|st.results|].Updated? ==> r.levels == st.levels && r.movements == st.movements
    ensures r.results[|st.results|].Updated? ==>
              var k := u.id.value;
              var before := st.levels[k];
              r.levels == st.levels[k := before.(available := u.available.GetOr(before.available),
                                                 damaged := u.damaged.GetOr(before.damaged))] &&
              r.movements == st.movements + [Movement(k.0, "ADJUSTMENT", u.quantityChange.GetOr(0), before.available,
                                                      u.available.GetOr(before.available))]
  {
    if u.id.None? then st.(results := st.results + [NoId])
    else if u.id.value !in st.levels || !OwnedWarehouse(warehouses, owned, u.id.value.1) then
      st.(results := st.results + [NotFound(u.id.value)])
    else
      var k := u.id.value;
      var before := st.levels[k];
      var after := before.(available := u.available.GetOr(before.available), damaged := u.damaged.GetOr(before.damaged));
      UpdateState(st.levels[k := after],
                  st.movements + [Movement(k.0, "ADJUSTMENT", u.quantityChange.GetOr(0), before.available, after.available)],
                  st.results + [Updated(k)])
  }

  function UpdateAll(st: UpdateState, warehouses: seq<Warehouse>, owned: set<SupermarketId>, updates: seq<StockUpdate>): UpdateState
  {
    if |updates| == 0 then st
    else UpdateOne(UpdateAll(st, warehouses, owned, updates[..|updates| - 1]), warehouses, owned, updates[|updates| - 1])
  }

  /** Over a whole request: one result per entry after the earlier ones; no record
   *  appears or disappears; reserved, allocated and on-order counts never change. */
  lemma {:induction false} UpdateAllShape(st: UpdateState, warehouses: seq<Warehouse>, owned: set<SupermarketId>,
                                          updates: seq<StockUpdate>)
    ensures var r := UpdateAll(st, warehouses, owned, updates);
            |r.results| == |st.results| + |updates| && r.results[..|st.results|] == st.results &&
            (forall k :: k in r.levels <==> k in st.levels) &&
            (forall k :: k in st.levels ==>
               r.levels[k].reserved == st.levels[k].reserved && r.levels[k].allocatedUnits == st.levels[k].allocatedUnits &&
               r.levels[k].onOrder == st.levels[k].onOrder)
  {
    if |updates| > 0 {
      var front := updates[..|updates| - 1];
      UpdateAllShape(st, warehouses, owned, front);
      var p := UpdateAll(st, warehouses, owned, front);
      var r := UpdateAll(st, warehouses, owned, updates);
      assert r.results[..|st.results|] == r.results[..|p.results|][..|st.results|];
    }
  }

  /** Entry `j` gets its own result, decided by that entry (a failing entry does not
   *  stop the later ones): no id gives the id error, and a success or a not-found
   *  names the entry's own record, a success only in a warehouse of the user. */
  lemma {:induction false} UpdateResultAt(st: UpdateState, warehouses: seq<Warehouse>, owned: set<SupermarketId>,
                                          updates: seq<StockUpdate>, j: nat)
    requires j < |updates|
    ensures var r := UpdateAll(st, warehouses, owned, updates);
            |st.results| + j < |r.results| &&
            var res := r.results[|st.results| + j];
            (res.NoId? <==> updates[j].id.None?) &&
            (res.Updated? ==> updates[j].id == Some(res.id) && OwnedWarehouse(warehouses, owned, res.id.1)) &&
            (res.NotFound? ==> updates[j].id == Some(res.missing))
  {
    var front := updates[..|updates| - 1];
    UpdateAllShape(st, warehouses, owned, front);
    var p := UpdateAll(st, warehouses, owned, front);
    var r := UpdateAll(st, warehouses, owned, updates);
    if j < |updates| - 1 {
      UpdateResultAt(st, warehouses, owned, front, j);
      assert r.results[..|p.results|] == p.results;
      assert r.results[|st.results| + j] == p.results[|st.results| + j];
    }
  }

  /** A record that no entry names keeps all its counts. */
  lemma {:induction false} UpdateLeavesOthers(st: UpdateState, warehouses: seq<Warehouse>, owned: set<SupermarketId>,
                                              updates: seq<StockUpdate>, k: LevelKey)
    requires k in st.levels
    requires forall j :: 0 <= j < |updates| ==> updates[j].id != Some(k)
    ensures k in UpdateAll(st, warehouses, owned, updates).levels
    ensures UpdateAll(st, warehouses, owned, updates).levels[k] == st.levels[k]
  {
    if |updates| > 0 {
      UpdateLeavesOthers(st, warehouses, owned, updates[..|updates| - 1], k);
    }
  }

  /** One entry of update_stock_levels as written (orders/enhanced_views.py:121-137):
   *  the counts are assigned to `available_quantity` and `damaged_quantity`, which
   *  are not fields of StockLevel, so the save stores the counts unchanged; the
   *  movement create then passes `warehouse`, `quantity_change` and `reason`, which
   *  the movement model lacks (ModelFields.AdjustmentRaises), and the TypeError is
   *  caught into an error entry for the record. */
  function UpdateOneAsWritten(st: UpdateState, warehouses: seq<Warehouse>, owned: set<SupermarketId>, u: StockUpdate): (r: UpdateState)
    ensures r.levels == st.levels && r.movements == st.movements
    ensures |r.results| == |st.results| + 1 && r.results[..|st.results|] == st.results
    ensures r.results[|st.results|].MovementRejected? <==>
              u.id.Some? && u.id.value in st.levels && OwnedWarehouse(warehouses, owned, u.id.value.1)
    ensures !r.results[|st.results|].Updated?
  {
    if u.id.None? then st.(results := st.results + [NoId])
    else if u.id.value !in st.levels || !OwnedWarehouse(warehouses, owned, u.id.value.1) then
      st.(results := st.results + [NotFound(u.id.value)])
    else st.(results := st.results + [MovementRejected(u.id.value)])
  }

  /** update_stock_levels as written, entry by entry. */
  function UpdateAllAsWritten(st: UpdateState, warehouses: seq<Warehouse>, owned: set<SupermarketId>,
                              updates: seq<StockUpdate>): (r: UpdateState)
    ensures r.levels == st.levels && r.movements == st.movements
    ensures |r.results| == |st.results| + |updates|
  {
    if |updates| == 0 then st
    else UpdateOneAsWritten(UpdateAllAsWritten(st, warehouses, owned, updates[..|updates| - 1]), warehouses, owned,
                            updates[|updates| - 1])
  }

  /** As written, a request stores nothing and reports no success: no counter and no
   *  movement changes, while the intended UpdateOne sets the counts of every record
   *  it finds; the two agree on which entries name a record the user owns. */
  lemma {:induction false} UpdateAsWrittenStoresNothing(st: UpdateState, warehouses: seq<Warehouse>,
                                                        owned: set<SupermarketId>, updates: seq<StockUpdate>)
    ensures var r := UpdateAllAsWritten(st, warehouses, owned, updates);
            r.levels == st.levels && r.movements == st.movements &&
            |r.results| == |st.results| + |updates| && r.results[..|st.results|] == st.results &&
            forall j :: |st.results| <= j < |r.results| ==> !r.results[j].Updated?
  {
    if |updates| > 0 {
      var front := updates[..|updates| - 1];
      UpdateAsWrittenStoresNothing(st, warehouses, owned, front);
      var p := UpdateAllAsWritten(st, warehouses, owned, front);
      var r := UpdateAllAsWritten(st, warehouses, owned, updates);
      assert r.results[..|p.results|] == p.results;
      assert r.results[..|st.results|] == r.results[..|p.results|][..|st.results|];
      forall j | |st.results| <= j < |r.results|
        ensures !r.results[j].Updated?
      {
        if j < |p.results| {
          assert r.results[j] == p.results[j];
        }
      }
    }
  }

  /** update_stock_levels: each entry in turn, one result per entry. */
  method UpdateStockLevels(db: OrderDatabase, owned: set<SupermarketId>, updates: seq<StockUpdate>)
    returns (results: seq<UpdateResult>)
    requires db.Valid()
    modifies db`levels, db`movements
    ensures db.Valid()
    ensures var r := UpdateAll(UpdateState(old(db.levels), old(db.movements), []), db.warehouses, owned, updates);
            db.levels == r.levels && db.movements == r.movements && results == r.results
  {
    results := [];
    ghost var st0 := UpdateState(db.levels, db.movements, []);
    var i := 0;
    while i < |updates|
      invariant i <= |updates|
      invariant db.Valid()
      invariant UpdateAll(st0, db.warehouses, owned, updates[..i]) == UpdateState(db.levels, db.movements, results)
    {
      assert updates[..i + 1][..i] == updates[..i];
      var u := updates[i];
      if u.id.None? {
        results := results + [NoId];
      } else if u.id.value !in db.levels ||
                !(exists j :: 0 <= j < |db.warehouses| && db.warehouses[j].id == u.id.value.1 &&
                               db.warehouses[j].supermarket in owned) {
        results := results + [NotFound(u.id.value)];
      } else {
        var k := u.id.value;
        var level := db.levels[k];
        var previous := level.available;
        if u.available.Some? {
          level := level.(available := u.available.value);
        }
        if u.damaged.Some? {
          level := level.(damaged := u.damaged.value);
        }
        db.levels := db.levels[k := level];
        db.movements := db.movements + [Movement(k.0, "ADJUSTMENT", u.quantityChange.GetOr(0), previous, level.available)];
        results := results + [Updated(k)];
      }
      i := i + 1;
    }
    assert updates[..|updates|] == updates;
  }
}
