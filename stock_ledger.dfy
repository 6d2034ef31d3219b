/** The stock reservation ledger of orders/services.py (StockService) as functions on
 *  a Ledger value: what reserve_stock, release_reservation and fulfill_order_item do
 *  to the counters, the reservations and the movement log. The methods of
 *  StockService (stock_service.dfy) are proved against these functions. */
module StockLedger {
  import opened Wrappers
  import Seqs
  import InventoryModels
  import opened OrderModels
  import opened EnhancedModels

  /** Reservations expire 24 hours (in seconds) after they are made. */
  const ReservationLifetime: int := 24 * 60 * 60

  /** The counter record of `k`, or the zero record get_or_create would make. */
  function LevelAt(levels: map<LevelKey, StockLevel>, k: LevelKey): StockLevel
  {
    if k in levels then levels[k] else ZeroLevel
  }

  /** `q` units moved from available to reserved (a negative `q` moves them back). */
  function ShiftLevel(l: StockLevel, q: int): (r: StockLevel)
    ensures r.available + r.reserved == l.available + l.reserved
    ensures Total(r) == Total(l)
    ensures r.available == l.available - q
    ensures r.(available := l.available, reserved := l.reserved) == l
  {
    l.(available := l.available - q, reserved := l.reserved + q)
  }

  function Movement(product: ProductId, movementType: string, quantity: int, previous: int, updated: int): InventoryModels.StockMovement
  {
    InventoryModels.StockMovement(product, movementType, quantity, previous, updated, None, None)
  }

  /** The warehouse a reservation goes to: the one given, else the supermarket's
   *  first default warehouse. */
  function ResolveWarehouse(warehouses: seq<Warehouse>, sm: SupermarketId, given: Option<WarehouseId>): (r: Option<WarehouseId>)
    ensures given.Some? ==> r == given
    ensures given.None? ==> r == DefaultWarehouse(warehouses, sm)
  {
    if given.Some? then given else DefaultWarehouse(warehouses, sm)
  }

  datatype ReserveOutcome = ReserveOutcome(ledger: Ledger, reservation: Option<ReservationId>)

  /** StockService.reserve_stock once the warehouse `w` is known. The counter record
   *  is fetched or created with zero counters; if fewer than `quantity` units are
   *  available the (possibly new) record is kept and no reservation is made. A
   *  negative quantity fails the reservation's non-negative column, so the whole
   *  step, record creation included, is rolled back. Otherwise an ACTIVE reservation
   *  expiring 24 hours from `now` is made, `quantity` units move from available to
   *  reserved, and a RESERVATION movement is logged. */
  function ReserveIn(l: Ledger, product: ProductId, w: WarehouseId, quantity: int, order: OrderId, now: int): (r: ReserveOutcome)
    ensures r.reservation.Some? <==> 0 <= quantity <= LevelAt(l.levels, (product, w)).available
    ensures r.reservation.None? ==>
              r.ledger == l || r.ledger == l.(levels := l.levels[(product, w) := LevelAt(l.levels, (product, w))])
    ensures r.reservation.Some? ==>
              var before := LevelAt(l.levels, (product, w));
              r.reservation.value == l.nextReservationId &&
              r.ledger.nextReservationId == l.nextReservationId + 1 &&
              r.ledger.reservations == l.reservations[l.nextReservationId :=
                Reservation(product, w, order, quantity, ReservationActive, now + ReservationLifetime)] &&
              r.ledger.levels == l.levels[(product, w) := ShiftLevel(before, quantity)] &&
              r.ledger.levels[(product, w)].available >= 0 &&
              r.ledger.movements == l.movements +
                [Movement(product, "RESERVATION", -quantity, before.available, before.available - quantity)]
  {
    var key := (product, w);
    var level := LevelAt(l.levels, key);
    if level.available < quantity then ReserveOutcome(l.(levels := l.levels[key := level]), None)
    else if quantity < 0 then ReserveOutcome(l, None)
    else
      var id := l.nextReservationId;
      ReserveOutcome(
        Ledger(
          l.levels[key := ShiftLevel(level, quantity)],
          l.reservations[id := Reservation(product, w, order, quantity, ReservationActive, now + ReservationLifetime)],
          l.movements + [Movement(product, "RESERVATION", -quantity, level.available, level.available - quantity)],
          id + 1),
        Some(id))
  }

  /** StockService.reserve_stock: with no warehouse given and no default warehouse
   *  for the supermarket nothing happens and no reservation is returned. */
  function Reserve(l: Ledger, warehouses: seq<Warehouse>, sm: SupermarketId, product: ProductId, quantity: int,
                   order: OrderId, given: Option<WarehouseId>, now: int): (r: ReserveOutcome)
    ensures ResolveWarehouse(warehouses, sm, given).None? ==> r == ReserveOutcome(l, None)
    ensures r.reservation.Some? ==> ResolveWarehouse(warehouses, sm, given).Some?
  {
    var w := ResolveWarehouse(warehouses, sm, given);
    if w.None? then ReserveOutcome(l, None) else ReserveIn(l, product, w.value, quantity, order, now)
  }

  /** StockService.reserve_stock as written (orders/services.py:376-382): the
   *  reservation is created with the EnhancedOrder the service is given, but its
   *  foreign key points at orders.Order, so the create raises ValueError inside the
   *  atomic block, which rolls back, and the error is caught and None returned. Only
   *  the insufficient-stock return, which comes first, commits the record
   *  get_or_create made. */
  function ReserveInAsWritten(l: Ledger, product: ProductId, w: WarehouseId, quantity: int): (r: ReserveOutcome)
    ensures r.reservation.None?
    ensures r.ledger.reservations == l.reservations && r.ledger.movements == l.movements
    ensures r.ledger.nextReservationId == l.nextReservationId
    ensures LevelAt(l.levels, (product, w)).available < quantity ==>
              r.ledger.levels == l.levels[(product, w) := LevelAt(l.levels, (product, w))]
    ensures quantity <= LevelAt(l.levels, (product, w)).available ==> r.ledger == l
  {
    var key := (product, w);
    var level := LevelAt(l.levels, key);
    if level.available < quantity then ReserveOutcome(l.(levels := l.levels[key := level]), None)
    else ReserveOutcome(l, None)
  }

  /** As written, no call ever reserves: wherever the intended ReserveIn makes a
   *  reservation, the code as written rolls back to the ledger it started from, and
   *  where ReserveIn refuses the two agree. */
  lemma {:induction false} ReserveAsWrittenNeverReserves(l: Ledger, product: ProductId, w: WarehouseId, quantity: int,
                                                         order: OrderId, now: int)
    ensures var intended := ReserveIn(l, product, w, quantity, order, now);
            var written := ReserveInAsWritten(l, product, w, quantity);
            (intended.reservation.Some? <==> 0 <= quantity <= LevelAt(l.levels, (product, w)).available) &&
            (intended.reservation.Some? ==> written == ReserveOutcome(l, None)) &&
            (intended.reservation.None? ==> written == intended)
  {
  }

  /** StockService.release_reservation. A reservation that is gone, or whose counter
   *  record is gone (the lookup raises and the error is swallowed), changes nothing.
   *  Otherwise its units move back from reserved to available, a RELEASE movement is
   *  logged and the reservation is deleted. */
  function Release(l: Ledger, id: ReservationId): (r: Ledger)
    ensures id !in l.reservations || (l.reservations[id].product, l.reservations[id].warehouse) !in l.levels ==> r == l
    ensures id in l.reservations && (l.reservations[id].product, l.reservations[id].warehouse) in l.levels ==>
              var res := l.reservations[id];
              var key := (res.product, res.warehouse);
              r.reservations == l.reservations - {id} && key in r.levels &&
              r.levels[key].available == l.levels[key].available + res.quantity &&
              r.levels[key].reserved == l.levels[key].reserved - res.quantity &&
              |r.movements| == |l.movements| + 1
    ensures r.levels.Keys == l.levels.Keys
    ensures forall k :: k in l.levels ==>
              r.levels[k].available + r.levels[k].reserved == l.levels[k].available + l.levels[k].reserved
    ensures forall k :: k in l.levels && (id !in l.reservations || k != (l.reservations[id].product, l.reservations[id].warehouse)) ==>
              r.levels[k] == l.levels[k]
    ensures r.nextReservationId == l.nextReservationId
  {
    if id !in l.reservations then l
    else
      var res := l.reservations[id];
      var key := (res.product, res.warehouse);
      if key !in l.levels then l
      else
        var after := ShiftLevel(l.levels[key], -res.quantity);
        Ledger(
          l.levels[key := after],
          l.reservations - {id},
          l.movements + [Movement(res.product, "RELEASE", res.quantity, after.available - res.quantity, after.available)],
          l.nextReservationId)
  }

  /** Deleting a reservation sets every item's reference to it to null. */
  function NullReservation(items: seq<OrderItem>, id: ReservationId): (r: seq<OrderItem>)
    ensures |r| == |items|
    ensures forall i :: 0 <= i < |r| ==> r[i].reservation != Some(id)
    ensures forall i :: 0 <= i < |r| ==> r[i].(reservation := items[i].reservation) == items[i]
    ensures forall i :: 0 <= i < |r| && items[i].reservation != Some(id) ==> r[i] == items[i]
  {
    seq(|items|, i requires 0 <= i < |items| =>
      if items[i].reservation == Some(id) then items[i].(reservation := None) else items[i])
  }

  /** With no item linked to the reservation, deleting it leaves the items alone. */
  lemma {:induction false} NullReservationUnlinked(items: seq<OrderItem>, id: ReservationId)
    requires forall i :: 0 <= i < |items| ==> items[i].reservation != Some(id)
    ensures NullReservation(items, id) == items
  {
    var r := NullReservation(items, id);
    assert forall i :: 0 <= i < |items| ==> r[i] == items[i];
  }

  /** Reservation ids are below the next one, every reservation's counter record
   *  exists, and every item refers only to existing reservations. */
  predicate StockValid(l: Ledger, items: seq<OrderItem>)
  {
    LedgerValid(l) &&
    forall i :: 0 <= i < |items| && items[i].reservation.Some? ==> items[i].reservation.value in l.reservations
  }

  /** The units reservation `id` holds on record `k`: its quantity when it exists and
   *  is on that record, else 0. */
  function HeldAt(reservations: map<ReservationId, Reservation>, id: ReservationId, k: LevelKey): int
  {
    if id in reservations && (reservations[id].product, reservations[id].warehouse) == k then reservations[id].quantity
    else 0
  }

  /** The units the reservations with ids below `n` hold on record `k`. */
  function ReservedBelow(reservations: map<ReservationId, Reservation>, k: LevelKey, n: nat): int
  {
    if n == 0 then 0 else ReservedBelow(reservations, k, n - 1) + HeldAt(reservations, n - 1, k)
  }

  /** The units all live reservations hold on record `k` (every id is below the next one). */
  function ReservedSum(l: Ledger, k: LevelKey): int
  {
    ReservedBelow(l.reservations, k, l.nextReservationId)
  }

  /** The counters agree with the reservations: no reservation holds a negative
   *  quantity (its column is a PositiveIntegerField), no record has a negative
   *  available count (the MinValueValidator(0) of the model), and every record's
   *  reserved count is exactly what the live reservations on it hold. */
  ghost predicate LedgerBalanced(l: Ledger)
  {
    (forall id :: id in l.reservations ==> l.reservations[id].quantity >= 0) &&
    forall k :: k in l.levels ==> l.levels[k].available >= 0 && l.levels[k].reserved == ReservedSum(l, k)
  }

  /** A balanced ledger has no negative reserved count either. */
  lemma {:induction false} BalancedReservedNonNegative(l: Ledger, k: LevelKey)
    requires LedgerBalanced(l) && k in l.levels
    ensures l.levels[k].reserved >= 0
  {
    ReservedBelowNonNegative(l.reservations, k, l.nextReservationId);
  }

  lemma {:induction false} ReservedBelowNonNegative(reservations: map<ReservationId, Reservation>, k: LevelKey, n: nat)
    requires forall id :: id in reservations ==> reservations[id].quantity >= 0
    ensures ReservedBelow(reservations, k, n) >= 0
    decreases n
  {
    if n > 0 {
      ReservedBelowNonNegative(reservations, k, n - 1);
    }
  }

  /** The sum looks only at the ids below `n`. */
  lemma {:induction false} ReservedBelowFrame(a: map<ReservationId, Reservation>, b: map<ReservationId, Reservation>,
                                              k: LevelKey, n: nat)
    requires forall id: ReservationId :: id < n ==> HeldAt(a, id, k) == HeldAt(b, id, k)
    ensures ReservedBelow(a, k, n) == ReservedBelow(b, k, n)
    decreases n
  {
    if n > 0 {
      ReservedBelowFrame(a, b, k, n - 1);
    }
  }

  /** With no reservation below `n` on record `k`, nothing is held there. */
  lemma {:induction false} ReservedBelowNone(reservations: map<ReservationId, Reservation>, k: LevelKey, n: nat)
    requires forall id: ReservationId :: id < n ==> HeldAt(reservations, id, k) == 0
    ensures ReservedBelow(reservations, k, n) == 0
    decreases n
  {
    if n > 0 {
      ReservedBelowNone(reservations, k, n - 1);
    }
  }

  /** Deleting reservation `id` takes what it held off its own record's sum only. */
  lemma {:induction false} ReservedBelowRemove(reservations: map<ReservationId, Reservation>, id: ReservationId,
                                               k: LevelKey, n: nat)
    requires id in reservations && id < n
    ensures ReservedBelow(reservations - {id}, k, n) == ReservedBelow(reservations, k, n) - HeldAt(reservations, id, k)
    decreases n
  {
    if n - 1 == id {
      ReservedBelowFrame(reservations - {id}, reservations, k, id);
    } else {
      ReservedBelowRemove(reservations, id, k, n - 1);
    }
  }

  /** Adding a reservation under the next id adds what it holds on its own record. */
  lemma {:induction false} ReservedBelowAdd(reservations: map<ReservationId, Reservation>, k: LevelKey, n: nat,
                                            res: Reservation)
    requires forall id :: id in reservations ==> id < n
    ensures ReservedBelow(reservations[n := res], k, n + 1)
            == ReservedBelow(reservations, k, n) + (if (res.product, res.warehouse) == k then res.quantity else 0)
  {
    ReservedBelowFrame(reservations[n := res], reservations, k, n);
  }

  datatype FulfillOutcome = FulfillOutcome(ledger: Ledger, items: seq<OrderItem>)

  /** StockService.fulfill_order_item on the item at index `i`. Without a reservation
   *  nothing happens; a missing counter record makes the step fail and roll back.
   *  Otherwise the reserved counter drops by the reservation's quantity (available is
   *  untouched), an OUT movement is logged, the item is saved as FULFILLED and the
   *  reservation is deleted, which nulls the item's reference to it. */
  function Fulfill(l: Ledger, items: seq<OrderItem>, i: nat): (r: FulfillOutcome)
    requires i < |items|
    ensures |r.items| == |items|
  {
    var item := items[i];
    if item.reservation.None? || item.reservation.value !in l.reservations then FulfillOutcome(l, items)
    else
      var id := item.reservation.value;
      var res := l.reservations[id];
      var key := (res.product, res.warehouse);
      if key !in l.levels then FulfillOutcome(l, items)
      else
        var after := l.levels[key].(reserved := l.levels[key].reserved - res.quantity);
        FulfillOutcome(
          Ledger(
            l.levels[key := after],
            l.reservations - {id},
            l.movements + [Movement(res.product, "OUT", -res.quantity,
                                    after.available + after.reserved + res.quantity, after.available + after.reserved)],
            l.nextReservationId),
          NullReservation(items[i := SaveItem(item.(status := ItemFulfilled))], id))
  }

  /** What fulfilling does: a fulfilled item has no reservation left, or nothing
   *  changed; the records and their available counts stay; without a reservation
   *  nothing happens; otherwise the item is FULFILLED, its reservation is gone and the
   *  record's reserved count, and so its total, drop by the reserved quantity. */
  lemma {:induction false} FulfillEffect(l: Ledger, items: seq<OrderItem>, i: nat)
    requires i < |items|
    ensures var r := Fulfill(l, items, i);
            (r.items[i].reservation.None? || r == FulfillOutcome(l, items)) &&
            r.ledger.levels.Keys == l.levels.Keys &&
            (forall k :: k in l.levels ==> r.ledger.levels[k].available == l.levels[k].available) &&
            (items[i].reservation.None? ==> r == FulfillOutcome(l, items))
    ensures var r := Fulfill(l, items, i);
            r != FulfillOutcome(l, items) ==>
              items[i].reservation.Some? && items[i].reservation.value in l.reservations &&
              var res := l.reservations[items[i].reservation.value];
              var key := (res.product, res.warehouse);
              key in l.levels &&
              r.items[i].status == ItemFulfilled &&
              r.ledger.reservations == l.reservations - {items[i].reservation.value} &&
              r.ledger.levels == l.levels[key := l.levels[key].(reserved := l.levels[key].reserved - res.quantity)] &&
              Total(r.ledger.levels[key]) == Total(l.levels[key]) - res.quantity
  {
  }

  /** Releasing the reservation just made restores the counters (the record
   *  get_or_create made stays, at zero) and the reservation table. */
  lemma {:induction false} ReserveThenReleaseRestores(l: Ledger, product: ProductId, w: WarehouseId, quantity: int, order: OrderId, now: int)
    requires LedgerValid(l)
    ensures var r := ReserveIn(l, product, w, quantity, order, now);
            r.reservation.Some? ==>
              var back := Release(r.ledger, r.reservation.value);
              back.levels == l.levels[(product, w) := LevelAt(l.levels, (product, w))] &&
              back.reservations == l.reservations &&
              |back.movements| == |l.movements| + 2
  {
    var r := ReserveIn(l, product, w, quantity, order, now);
    if r.reservation.Some? {
      ReleaseUndoesShift(l, r.ledger, r.reservation.value, (product, w), quantity);
    }
  }

  lemma {:induction false} ReleaseUndoesShift(l: Ledger, l1: Ledger, id: ReservationId, key: LevelKey, quantity: int)
    requires id !in l.reservations
    requires id in l1.reservations && l1.reservations == l.reservations[id := l1.reservations[id]]
    requires (l1.reservations[id].product, l1.reservations[id].warehouse) == key
    requires l1.reservations[id].quantity == quantity
    requires l1.levels == l.levels[key := ShiftLevel(LevelAt(l.levels, key), quantity)]
    requires |l1.movements| == |l.movements| + 1
    ensures Release(l1, id).levels == l.levels[key := LevelAt(l.levels, key)]
    ensures Release(l1, id).reservations == l.reservations
    ensures |Release(l1, id).movements| == |l.movements| + 2
  {
    ReleaseFound(l1, id);
    UnshiftLevels(l.levels, l1.levels, key, quantity);
    assert l1.reservations - {id} == l.reservations;
  }

  lemma {:induction false} UnshiftLevels(levels: map<LevelKey, StockLevel>, levels1: map<LevelKey, StockLevel>, key: LevelKey, quantity: int)
    requires levels1 == levels[key := ShiftLevel(LevelAt(levels, key), quantity)]
    ensures key in levels1
    ensures levels1[key := ShiftLevel(levels1[key], -quantity)] == levels[key := LevelAt(levels, key)]
  {
    var before := LevelAt(levels, key);
    assert ShiftLevel(ShiftLevel(before, quantity), -quantity) == before;
  }

  /** What release does to a reservation whose counter record exists. */
  lemma {:induction false} ReleaseFound(l: Ledger, id: ReservationId)
    requires id in l.reservations
    requires (l.reservations[id].product, l.reservations[id].warehouse) in l.levels
    ensures var res := l.reservations[id];
            var key := (res.product, res.warehouse);
            Release(l, id).levels == l.levels[key := ShiftLevel(l.levels[key], -res.quantity)] &&
            Release(l, id).reservations == l.reservations - {id} &&
            |Release(l, id).movements| == |l.movements| + 1
  {
  }

  /** StockService.release_reservation as written: the RELEASE movement's reference
   *  and notes read `reservation.order.order_number`, which orders.Order lacks
   *  (ModelFields.MovementReferenceRaises). A call that gets past the lookups
   *  raises AttributeError after the counter update, the atomic block rolls the
   *  update back, and the except clause swallows the error; a call that fails a
   *  lookup changes nothing either. */
  function ReleaseAsWritten(l: Ledger, id: ReservationId): (r: Ledger)
    ensures r == l
  {
    if id !in l.reservations then l
    else
      var res := l.reservations[id];
      if (res.product, res.warehouse) !in l.levels then l
      else l  // rolled back on the order_number read
  }

  /** As written no release takes effect: wherever the intended Release deletes the
   *  reservation and gives its units back, the code as written keeps it. */
  lemma {:induction false} ReleaseAsWrittenReleasesNothing(l: Ledger, id: ReservationId)
    requires id in l.reservations && (l.reservations[id].product, l.reservations[id].warehouse) in l.levels
    ensures id !in Release(l, id).reservations
    ensures id in ReleaseAsWritten(l, id).reservations && ReleaseAsWritten(l, id).levels == l.levels
  {
    ReleaseFound(l, id);
  }

  /** StockService.fulfill_order_item as written: the OUT movement reads the same
   *  missing `order_number`, so a call that gets past the lookups rolls back, and
   *  the item stays unfulfilled with its reservation. */
  function FulfillAsWritten(l: Ledger, items: seq<OrderItem>, i: nat): (r: FulfillOutcome)
    requires i < |items|
    ensures r == FulfillOutcome(l, items)
  {
    var item := items[i];
    if item.reservation.None? || item.reservation.value !in l.reservations then FulfillOutcome(l, items)
    else FulfillOutcome(l, items)  // a missing record, or the order_number read, rolls back
  }

  /** As written no item is fulfilled: where the intended Fulfill marks the item
   *  FULFILLED and frees its reservation, the code as written leaves both. */
  lemma {:induction false} FulfillAsWrittenFulfillsNothing(l: Ledger, items: seq<OrderItem>, i: nat)
    requires i < |items| && items[i].reservation.Some? && items[i].reservation.value in l.reservations
    requires var res := l.reservations[items[i].reservation.value]; (res.product, res.warehouse) in l.levels
    ensures Fulfill(l, items, i).items[i].status == ItemFulfilled
    ensures Fulfill(l, items, i).items[i].reservation.None?
    ensures FulfillAsWritten(l, items, i).items[i] == items[i]
  {
    var id := items[i].reservation.value;
    var saved := items[i := SaveItem(items[i].(status := ItemFulfilled))];
    assert NullReservation(saved, id)[i].reservation.None?;
  }

  /** Reserving keeps the references valid and the counters balanced against the
   *  reservations. */
  lemma {:induction false} ReserveKeepsValid(l: Ledger, items: seq<OrderItem>, product: ProductId, w: WarehouseId, quantity: int,
                          order: OrderId, now: int)
    requires StockValid(l, items)
    ensures StockValid(ReserveIn(l, product, w, quantity, order, now).ledger, items)
    ensures LedgerBalanced(l) ==> LedgerBalanced(ReserveIn(l, product, w, quantity, order, now).ledger)
  {
    ReserveKeepsReferences(l, items, product, w, quantity, order, now);
    if LedgerBalanced(l) {
      ReserveKeepsBalanced(l, product, w, quantity, order, now);
    }
  }

  lemma {:induction false} ReserveKeepsReferences(l: Ledger, items: seq<OrderItem>, product: ProductId, w: WarehouseId,
                                                  quantity: int, order: OrderId, now: int)
    requires StockValid(l, items)
    ensures StockValid(ReserveIn(l, product, w, quantity, order, now).ledger, items)
  {
  }

  lemma {:induction false} ReserveKeepsBalanced(l: Ledger, product: ProductId, w: WarehouseId, quantity: int,
                                                order: OrderId, now: int)
    requires LedgerValid(l) && LedgerBalanced(l)
    ensures LedgerBalanced(ReserveIn(l, product, w, quantity, order, now).ledger)
  {
    var r := ReserveIn(l, product, w, quantity, order, now).ledger;
    var key := (product, w);
    var level := LevelAt(l.levels, key);
    if key !in l.levels {
      NoRecordHoldsNothing(l, key);
    }
    if level.available < quantity {
      FetchedKeepsBalanced(l, key);
    } else if 0 <= quantity {
      GrantKeepsBalanced(l, r, key, Reservation(product, w, order, quantity, ReservationActive, now + ReservationLifetime));
    }
  }

  /** No reservation is held on a record that does not exist. */
  lemma {:induction false} NoRecordHoldsNothing(l: Ledger, key: LevelKey)
    requires LedgerValid(l) && key !in l.levels
    ensures ReservedSum(l, key) == 0
  {
    ReservedBelowNone(l.reservations, key, l.nextReservationId);
  }

  /** get_or_create of a record on which no reservation is held keeps the balance. */
  lemma {:induction false} FetchedKeepsBalanced(l: Ledger, key: LevelKey)
    requires LedgerBalanced(l)
    requires ReservedSum(l, key) == LevelAt(l.levels, key).reserved
    ensures LedgerBalanced(l.(levels := l.levels[key := LevelAt(l.levels, key)]))
  {
  }

  /** A new reservation under the next id, shifting its own record, keeps the balance. */
  lemma {:induction false} GrantKeepsBalanced(l: Ledger, r: Ledger, key: LevelKey, res: Reservation)
    requires LedgerBalanced(l) && LedgerValid(l)
    requires key == (res.product, res.warehouse) && 0 <= res.quantity <= LevelAt(l.levels, key).available
    requires ReservedSum(l, key) == LevelAt(l.levels, key).reserved
    requires r.levels == l.levels[key := ShiftLevel(LevelAt(l.levels, key), res.quantity)]
    requires r.reservations == l.reservations[l.nextReservationId := res]
    requires r.nextReservationId == l.nextReservationId + 1
    ensures LedgerBalanced(r)
  {
    forall k | k in r.levels
      ensures r.levels[k].available >= 0 && r.levels[k].reserved == ReservedSum(r, k)
    {
      GrantKeyBalanced(l, r, key, res, k);
    }
  }

  lemma {:induction false} GrantKeyBalanced(l: Ledger, r: Ledger, key: LevelKey, res: Reservation, k: LevelKey)
    requires LedgerBalanced(l) && LedgerValid(l)
    requires key == (res.product, res.warehouse) && 0 <= res.quantity <= LevelAt(l.levels, key).available
    requires ReservedSum(l, key) == LevelAt(l.levels, key).reserved
    requires r.levels == l.levels[key := ShiftLevel(LevelAt(l.levels, key), res.quantity)]
    requires r.reservations == l.reservations[l.nextReservationId := res]
    requires r.nextReservationId == l.nextReservationId + 1
    requires k in r.levels
    ensures r.levels[k].available >= 0 && r.levels[k].reserved == ReservedSum(r, k)
  {
    ReservedBelowAdd(l.reservations, k, l.nextReservationId, res);
  }

  /** Releasing (and nulling the references to the deleted reservation) keeps the
   *  references valid and the counters balanced. */
  lemma {:induction false} ReleaseKeepsValid(l: Ledger, items: seq<OrderItem>, id: ReservationId)
    requires StockValid(l, items)
    ensures StockValid(Release(l, id), NullReservation(items, id))
    ensures LedgerBalanced(l) ==> LedgerBalanced(Release(l, id))
  {
    if LedgerBalanced(l) && id in l.reservations {
      var r := Release(l, id);
      forall k | k in r.levels
        ensures r.levels[k].available >= 0 && r.levels[k].reserved == ReservedSum(r, k)
      {
        ReservedBelowRemove(l.reservations, id, k, l.nextReservationId);
      }
    }
  }

  /** Fulfilling keeps the references valid and the counters balanced. */
  lemma {:induction false} FulfillKeepsValid(l: Ledger, items: seq<OrderItem>, i: nat)
    requires i < |items| && StockValid(l, items)
    ensures var r := Fulfill(l, items, i); StockValid(r.ledger, r.items)
    ensures LedgerBalanced(l) ==> LedgerBalanced(Fulfill(l, items, i).ledger)
  {
    var r := Fulfill(l, items, i).ledger;
    if LedgerBalanced(l) && r != l {
      var id := items[i].reservation.value;
      forall k | k in r.levels
        ensures r.levels[k].available >= 0 && r.levels[k].reserved == ReservedSum(r, k)
      {
        ReservedBelowRemove(l.reservations, id, k, l.nextReservationId);
      }
    }
  }

  /** Fulfilling an item twice does no more than fulfilling it once: the first call
   *  removes the item's reservation, so the second finds none. */
  lemma {:induction false} FulfillIdempotent(l: Ledger, items: seq<OrderItem>, i: nat)
    requires i < |items|
    ensures var r := Fulfill(l, items, i); Fulfill(r.ledger, r.items, i) == r
  {
  }

  // A multiset of unit moves between available and reserved, kept as a list of
  // (record, amount) pairs; used to show that reserving then releasing a set of
  // reservations, in any interleaving, leaves the counters as they were.

  /** Net amount moved to reserved at record `k`. */
  function Moved(moves: seq<(LevelKey, int)>, k: LevelKey): int
  {
    if |moves| == 0 then 0
    else Moved(moves[..|moves| - 1], k) + (if moves[|moves| - 1].0 == k then moves[|moves| - 1].1 else 0)
  }

  ghost predicate Mentions(moves: seq<(LevelKey, int)>, k: LevelKey)
  {
    exists j :: 0 <= j < |moves| && moves[j].0 == k
  }

  lemma {:induction false} MovedAppend(a: seq<(LevelKey, int)>, b: seq<(LevelKey, int)>, k: LevelKey)
    ensures Moved(a + b, k) == Moved(a, k) + Moved(b, k)
    decreases |b|
  {
    if |b| == 0 {
      assert a + b == a;
    } else {
      assert (a + b)[..|a + b| - 1] == a + b[..|b| - 1];
      MovedAppend(a, b[..|b| - 1], k);
    }
  }

  lemma {:induction false} UnmentionedNotMoved(moves: seq<(LevelKey, int)>, k: LevelKey)
    requires !Mentions(moves, k)
    ensures Moved(moves, k) == 0
    decreases |moves|
  {
    if |moves| > 0 {
      var front := moves[..|moves| - 1];
      forall j | 0 <= j < |front| ensures front[j].0 != k {
        assert front[j] == moves[j];
      }
      UnmentionedNotMoved(front, k);
    }
  }

  /** `levels` is `base` with the moves applied: exactly the records of `base` or
   *  named by a move exist, each shifted by its net move. */
  ghost predicate Shifted(base: map<LevelKey, StockLevel>, levels: map<LevelKey, StockLevel>, moves: seq<(LevelKey, int)>)
  {
    forall k ::
      (k in levels <==> k in base || Mentions(moves, k)) &&
      (k in levels ==> levels[k] == ShiftLevel(LevelAt(base, k), Moved(moves, k)))
  }

  lemma {:induction false} ShiftedStart(base: map<LevelKey, StockLevel>)
    ensures Shifted(base, base, [])
  {
  }

  /** Appending a move mentions exactly one more record. */
  lemma {:induction false} MentionsSnoc(moves: seq<(LevelKey, int)>, k: LevelKey, q: int)
    ensures forall k' :: Mentions(moves + [(k, q)], k') <==> Mentions(moves, k') || k' == k
  {
    var moves' := moves + [(k, q)];
    forall k' ensures Mentions(moves', k') <==> Mentions(moves, k') || k' == k {
      if Mentions(moves', k') && k' != k {
        var j :| 0 <= j < |moves'| && moves'[j].0 == k';
        assert moves[j].0 == k';
      }
      if Mentions(moves, k') {
        var j :| 0 <= j < |moves| && moves[j].0 == k';
        assert moves'[j].0 == k';
      }
      if k' == k {
        assert moves'[|moves|].0 == k';
      }
    }
  }

  /** Shifting one record by `q` extends the move list by one move. */
  lemma {:induction false} ShiftStep(base: map<LevelKey, StockLevel>, levels: map<LevelKey, StockLevel>, moves: seq<(LevelKey, int)>,
                  k: LevelKey, q: int)
    requires Shifted(base, levels, moves)
    ensures Shifted(base, levels[k := ShiftLevel(LevelAt(levels, k), q)], moves + [(k, q)])
  {
    var moves' := moves + [(k, q)];
    var levels' := levels[k := ShiftLevel(LevelAt(levels, k), q)];
    assert moves'[..|moves'| - 1] == moves;
    MentionsSnoc(moves, k, q);
    if k !in levels {
      UnmentionedNotMoved(moves, k);
    }
    var shifted := ShiftLevel(LevelAt(base, k), Moved(moves, k));
    assert LevelAt(levels, k) == shifted;
    assert ShiftLevel(shifted, q) == ShiftLevel(LevelAt(base, k), Moved(moves', k));
    forall k' ensures (k' in levels' <==> k' in base || Mentions(moves', k')) &&
                      (k' in levels' ==> levels'[k'] == ShiftLevel(LevelAt(base, k'), Moved(moves', k')))
    {
      assert Moved(moves', k') == Moved(moves, k') + (if k' == k then q else 0);
    }
  }

  /** Once every move is cancelled by an opposite one, the records of `base` are
   *  back to their values and every other record is a zero record. */
  lemma {:induction false} ShiftedBack(base: map<LevelKey, StockLevel>, levels: map<LevelKey, StockLevel>, moves: seq<(LevelKey, int)>)
    requires Shifted(base, levels, moves)
    requires forall k :: Moved(moves, k) == 0
    ensures forall k :: k in base ==> k in levels && levels[k] == base[k]
    ensures forall k :: k in levels && k !in base ==> levels[k] == ZeroLevel
  {
  }

  /** The moves reserve_stock makes: a zero move when it only creates the record,
   *  the quantity when it succeeds, none when it is rolled back. */
  function ReserveMoves(l: Ledger, product: ProductId, w: WarehouseId, quantity: int): seq<(LevelKey, int)>
  {
    var level := LevelAt(l.levels, (product, w));
    if level.available < quantity then [((product, w), 0)]
    else if quantity < 0 then []
    else [((product, w), quantity)]
  }

  lemma {:induction false} ReserveKeepsShifted(base: map<LevelKey, StockLevel>, moves: seq<(LevelKey, int)>, l: Ledger,
                            product: ProductId, w: WarehouseId, quantity: int, order: OrderId, now: int)
    requires Shifted(base, l.levels, moves)
    ensures var r := ReserveIn(l, product, w, quantity, order, now);
            var step := ReserveMoves(l, product, w, quantity);
            Shifted(base, r.ledger.levels, moves + step) &&
            forall k :: Moved(step, k) == if r.reservation.Some? && k == (product, w) then quantity else 0
  {
    var step := ReserveMoves(l, product, w, quantity);
    if step == [] {
      assert moves + step == moves;
    } else {
      var key := (product, w);
      ShiftStep(base, l.levels, moves, key, step[0].1);
      assert step == [(key, step[0].1)];
      forall k ensures Moved(step, k) == if k == key then step[0].1 else 0 {
        assert step[..0] == [];
      }
    }
  }

  lemma {:induction false} ReleaseKeepsShifted(base: map<LevelKey, StockLevel>, moves: seq<(LevelKey, int)>, l: Ledger, id: ReservationId)
    requires Shifted(base, l.levels, moves)
    requires id in l.reservations
    requires (l.reservations[id].product, l.reservations[id].warehouse) in l.levels
    ensures var res := l.reservations[id];
            Shifted(base, Release(l, id).levels, moves + [((res.product, res.warehouse), -res.quantity)])
  {
    var res := l.reservations[id];
    var key := (res.product, res.warehouse);
    ReleaseFound(l, id);
    assert LevelAt(l.levels, key) == l.levels[key];
    ShiftStep(base, l.levels, moves, key, -res.quantity);
  }

  /** The figure pushed to a channel: units available for the product summed over
   *  the supermarket's warehouses (a missing record counts 0). */
  function SyncTotal(levels: map<LevelKey, StockLevel>, warehouses: seq<Warehouse>, sm: SupermarketId, product: ProductId): int
  {
    if |warehouses| == 0 then 0
    else
      var w := warehouses[|warehouses| - 1];
      SyncTotal(levels, warehouses[..|warehouses| - 1], sm, product)
        + (if w.supermarket == sm then LevelAt(levels, (product, w.id)).available else 0)
  }

  /** How many of the warehouses have id `w` and belong to `sm` (1 when ids are unique). */
  function CountOf(warehouses: seq<Warehouse>, sm: SupermarketId, w: WarehouseId): nat
  {
    if |warehouses| == 0 then 0
    else CountOf(warehouses[..|warehouses| - 1], sm, w)
           + (if warehouses[|warehouses| - 1].id == w && warehouses[|warehouses| - 1].supermarket == sm then 1 else 0)
  }

  /** Changing one record's available count by `d` changes the channel figure by `d`
   *  times the number of the supermarket's warehouses with that id. */
  lemma {:induction false} SyncTotalUpdate(levels: map<LevelKey, StockLevel>, warehouses: seq<Warehouse>,
                                           sm: SupermarketId, product: ProductId, k: LevelKey, l': StockLevel)
    ensures SyncTotal(levels[k := l'], warehouses, sm, product)
            == SyncTotal(levels, warehouses, sm, product)
               + (if k.0 == product then (l'.available - LevelAt(levels, k).available) * CountOf(warehouses, sm, k.1) else 0)
    decreases |warehouses|
  {
    if |warehouses| > 0 {
      var front := warehouses[..|warehouses| - 1];
      var last := warehouses[|warehouses| - 1];
      SyncTotalUpdate(levels, front, sm, product, k, l');
      var d := if k.0 == product then l'.available - LevelAt(levels, k).available else 0;
      var hit := if last.id == k.1 && last.supermarket == sm then 1 else 0;
      var c := CountOf(front, sm, k.1);
      assert CountOf(warehouses, sm, k.1) == c + hit;
      if last.supermarket == sm && (product, last.id) == k {
        assert hit == 1 && LevelAt(levels[k := l'], k).available == LevelAt(levels, k).available + d;
      } else if last.supermarket == sm {
        assert d * hit == 0 && LevelAt(levels[k := l'], (product, last.id)) == LevelAt(levels, (product, last.id));
      } else {
        assert hit == 0;
      }
      assert d * (c + hit) == d * c + d * hit;
    }
  }

  lemma {:induction false} CountOfUnique(warehouses: seq<Warehouse>, sm: SupermarketId, w: WarehouseId)
    requires WarehousesWellFormed(warehouses)
    ensures CountOf(warehouses, sm, w) <= 1
    ensures CountOf(warehouses, sm, w) == 1 <==> exists i :: 0 <= i < |warehouses| && warehouses[i].id == w && warehouses[i].supermarket == sm
    decreases |warehouses|
  {
    if |warehouses| > 0 {
      var front := warehouses[..|warehouses| - 1];
      assert WarehousesWellFormed(front);
      CountOfUnique(front, sm, w);
      var last := warehouses[|warehouses| - 1];
      if CountOf(front, sm, w) == 1 {
        var i :| 0 <= i < |front| && front[i].id == w && front[i].supermarket == sm;
        assert warehouses[i] == front[i];
      }
      if exists i :: 0 <= i < |warehouses| && warehouses[i].id == w && warehouses[i].supermarket == sm {
        var i :| 0 <= i < |warehouses| && warehouses[i].id == w && warehouses[i].supermarket == sm;
        if i < |front| {
          assert front[i] == warehouses[i];
        }
      }
    }
  }

  /** A successful reservation in one of the supermarket's warehouses lowers the
   *  figure pushed to the supermarket's channels by exactly the quantity reserved;
   *  one in another supermarket's warehouse leaves it alone. */
  lemma {:induction false} ReserveLowersSyncTotal(l: Ledger, warehouses: seq<Warehouse>, product: ProductId, w: WarehouseId,
                               quantity: int, order: OrderId, now: int, sm: SupermarketId)
    requires WarehousesWellFormed(warehouses)
    ensures var r := ReserveIn(l, product, w, quantity, order, now);
            r.reservation.Some? ==>
              SyncTotal(r.ledger.levels, warehouses, sm, product)
                == SyncTotal(l.levels, warehouses, sm, product)
                   - (if exists i :: 0 <= i < |warehouses| && warehouses[i].id == w && warehouses[i].supermarket == sm
                      then quantity else 0)
  {
    var r := ReserveIn(l, product, w, quantity, order, now);
    if r.reservation.Some? {
      var key := (product, w);
      var before := LevelAt(l.levels, key);
      var shifted := ShiftLevel(before, quantity);
      assert r.ledger.levels == l.levels[key := shifted];
      SyncTotalUpdate(l.levels, warehouses, sm, product, key, shifted);
      CountOfUnique(warehouses, sm, w);
      var c := CountOf(warehouses, sm, w);
      ScaleByCount(shifted.available - before.available, c);
      assert shifted.available - before.available == -quantity;
      assert SyncTotal(r.ledger.levels, warehouses, sm, product)
          == SyncTotal(l.levels, warehouses, sm, product) + (if c == 1 then -quantity else 0);
    }
  }

  /** A change counted once or not at all. */
  lemma {:induction false} ScaleByCount(d: int, c: int)
    requires c == 0 || c == 1
    ensures d * c == if c == 1 then d else 0
  {
  }

  /** No counter record of the product has a negative available count. */
  ghost predicate NoneNegative(levels: map<LevelKey, StockLevel>, product: ProductId)
  {
    forall k :: k in levels && k.0 == product ==> levels[k].available >= 0
  }

  /** With no negative record, the figure pushed to a channel is never negative. */
  lemma {:induction false} SyncTotalNonNegative(levels: map<LevelKey, StockLevel>, warehouses: seq<Warehouse>,
                                                sm: SupermarketId, product: ProductId)
    requires NoneNegative(levels, product)
    ensures SyncTotal(levels, warehouses, sm, product) >= 0
    decreases |warehouses|
  {
    if |warehouses| > 0 {
      SyncTotalNonNegative(levels, warehouses[..|warehouses| - 1], sm, product);
    }
  }

  predicate HasMapping(mappings: map<(ChannelId, string), SkuMapping>, product: ProductId, channel: ChannelId)
  {
    exists k :: k in mappings && mappings[k].product == product && mappings[k].channel == channel
  }

  /** _sync_product_to_channel, the figure only: the product's available units over
   *  the channel's supermarket, pushed only when the product has a SKU mapping on
   *  that channel (the push itself is not modelled). */
  function SyncProductToChannel(levels: map<LevelKey, StockLevel>, warehouses: seq<Warehouse>,
                                mappings: map<(ChannelId, string), SkuMapping>, product: ProductId,
                                channel: Channel): (r: Option<int>)
    ensures r.None? <==> !HasMapping(mappings, product, channel.id)
    ensures r.Some? ==> r.value == SyncTotal(levels, warehouses, channel.supermarket, product)
  {
    if HasMapping(mappings, product, channel.id) then Some(SyncTotal(levels, warehouses, channel.supermarket, product))
    else None
  }
}
