/** StockService of orders/services.py: reserve_stock, release_reservation and
 *  fulfill_order_item, updating the counter records and reservation rows of an
 *  OrderDatabase in place, each proved to do what the StockLedger function of the
 *  same name describes. */
module StockService {
  import opened Wrappers
  import InventoryModels
  import opened OrderModels
  import opened EnhancedModels
  import opened StockLedger
  import opened OrderTables

  /** StockService.reserve_stock. */
  method ReserveStock(db: OrderDatabase, sm: SupermarketId, product: ProductId, quantity: int, order: OrderId,
                      given: Option<WarehouseId>, now: int) returns (reservation: Option<ReservationId>)
    requires db.Valid()
    modifies db`levels, db`reservations, db`movements, db`nextReservationId
    ensures db.Valid()
    ensures var r := Reserve(old(db.Ledger()), db.warehouses, sm, product, quantity, order, given, now);
            db.Ledger() == r.ledger && reservation == r.reservation
  {
    var warehouse := given;
    if warehouse.None? {
      warehouse := DefaultWarehouse(db.warehouses, sm);
    }
    if warehouse.None? {
      return None;
    }
    reservation := ReserveAt(db, product, warehouse.value, quantity, order, now);
  }

  /** reserve_stock once the warehouse is known: get or create the counter record,
   *  check the units available, then record the reservation, move the units and log
   *  the movement. */
  method ReserveAt(db: OrderDatabase, product: ProductId, w: WarehouseId, quantity: int, order: OrderId, now: int)
    returns (reservation: Option<ReservationId>)
    requires db.Valid()
    modifies db`levels, db`reservations, db`movements, db`nextReservationId
    ensures db.Valid()
    ensures var r := ReserveIn(old(db.Ledger()), product, w, quantity, order, now);
            db.Ledger() == r.ledger && reservation == r.reservation
  {
    ghost var l := db.Ledger();
    ghost var r := ReserveIn(l, product, w, quantity, order, now);
    ReserveKeepsValid(l, db.items, product, w, quantity, order, now);
    var key := (product, w);
    var level := if key in db.levels then db.levels[key] else ZeroLevel;
    if level.available < quantity {
      // get_or_create has saved the (possibly new) record
      db.levels := db.levels[key := level];
      assert db.Ledger() == r.ledger;
      return None;
    }
    if quantity < 0 {
      // the reservation row violates its non-negative column: the step is rolled back
      return None;
    }
    var id := db.nextReservationId;
    db.reservations := db.reservations[id := Reservation(product, w, order, quantity,
                                                          ReservationActive, now + ReservationLifetime)];
    db.nextReservationId := id + 1;
    var previous := level.available;
    level := level.(available := level.available - quantity, reserved := level.reserved + quantity);
    db.levels := db.levels[key := level];
    db.movements := db.movements + [Movement(product, "RESERVATION", -quantity, previous, level.available)];
    reservation := Some(id);
    assert db.Ledger() == r.ledger;
  }

  /** Whether release_reservation gets past its lookups for `id`. */
  predicate Releasable(l: Ledger, id: ReservationId)
  {
    id in l.reservations && (l.reservations[id].product, l.reservations[id].warehouse) in l.levels
  }

  /** StockService.release_reservation; a failed lookup is swallowed and changes nothing. */
  method ReleaseReservation(db: OrderDatabase, id: ReservationId)
    requires db.Valid()
    modifies db`levels, db`reservations, db`movements, db`items
    ensures db.Valid()
    ensures db.Ledger() == Release(old(db.Ledger()), id)
    ensures db.items == if Releasable(old(db.Ledger()), id) then NullReservation(old(db.items), id) else old(db.items)
  {
    ghost var r := Release(db.Ledger(), id);
    ReleaseKeepsValid(db.Ledger(), db.items, id);
    if id !in db.reservations {
      return;
    }
    var res := db.reservations[id];
    var key := (res.product, res.warehouse);
    if key !in db.levels {
      return;
    }
    var level := db.levels[key];
    level := level.(available := level.available + res.quantity);
    level := level.(reserved := level.reserved - res.quantity);
    db.levels := db.levels[key := level];
    db.movements := db.movements + [Movement(res.product, "RELEASE", res.quantity, level.available - res.quantity, level.available)];
    db.reservations := db.reservations - {id};
    db.items := NullReservation(db.items, id);
    assert db.Ledger() == r;
  }

  /** StockService.fulfill_order_item on the item at index `i`. */
  method FulfillOrderItem(db: OrderDatabase, i: nat)
    requires db.Valid() && i < |db.items|
    modifies db`levels, db`reservations, db`movements, db`items
    ensures db.Valid()
    ensures var r := Fulfill(old(db.Ledger()), old(db.items), i); db.Ledger() == r.ledger && db.items == r.items
  {
    ghost var r := Fulfill(db.Ledger(), db.items, i);
    FulfillKeepsValid(db.Ledger(), db.items, i);
    var item := db.items[i];
    if item.reservation.None? {
      return;
    }
    var id := item.reservation.value;
    if id !in db.reservations {
      return;
    }
    var res := db.reservations[id];
    var key := (res.product, res.warehouse);
    if key !in db.levels {
      return;
    }
    var level := db.levels[key];
    level := level.(reserved := level.reserved - res.quantity);
    db.levels := db.levels[key := level];
    db.movements := db.movements + [Movement(res.product, "OUT", -res.quantity,
                                             level.available + level.reserved + res.quantity,
                                             level.available + level.reserved)];
    item := item.(status := ItemFulfilled);
    db.items := db.items[i := SaveItem(item)];
    db.reservations := db.reservations - {id};
    db.items := NullReservation(db.items, id);
    assert db.levels == r.ledger.levels;
    assert db.movements == r.ledger.movements;
    assert db.items == r.items;
  }
}
