/** MultiChannelOrderService of orders/services.py: resolving a channel SKU to a
 *  product, and turning one incoming line into an order item, reserving stock for a
 *  single product or for every component of a bundle (with the compensating
 *  release when a component is short). */
module OrderService {
  import opened Wrappers
  import InventoryModels
  import opened OrderModels
  import opened EnhancedModels
  import opened StockLedger
  import opened OrderTables
  import opened StockService

  /** One incoming order line; a key the payload lacks is None. */
  datatype ItemData = ItemData(sku: Option<string>, name: Option<string>, quantity: Option<int>, price: Option<int>)

  /** The product a lookup by `id` finds in the catalogue. */
  function FindProduct(products: seq<InventoryModels.Product>, id: ProductId): (r: Option<InventoryModels.Product>)
    ensures r.Some? ==> r.value in products && r.value.id == id
    ensures r.None? ==> forall p :: p in products ==> p.id != id
  {
    if |products| == 0 then None
    else if products[0].id == id then Some(products[0])
    else FindProduct(products[1..], id)
  }

  /** The product matched directly: its SKU or its barcode equals `sku`, in the
   *  channel's supermarket. */
  predicate MatchesSku(p: InventoryModels.Product, sm: SupermarketId, sku: string)
  {
    (p.sku == Some(sku) || p.barcode == sku) && p.supermarket == sm
  }

  /** Index of the first product that matches `sku` directly. */
  function FirstSkuMatch(products: seq<InventoryModels.Product>, sm: SupermarketId, sku: string): (r: Option<nat>)
    ensures r.Some? ==> r.value < |products| && MatchesSku(products[r.value], sm, sku)
    ensures r.Some? ==> forall i :: 0 <= i < r.value ==> !MatchesSku(products[i], sm, sku)
    ensures r.None? ==> forall i :: 0 <= i < |products| ==> !MatchesSku(products[i], sm, sku)
  {
    if |products| == 0 then None
    else if MatchesSku(products[0], sm, sku) then Some(0)
    else
      var r := FirstSkuMatch(products[1..], sm, sku);
      assert forall i :: 1 <= i < |products| ==> products[i] == products[1..][i - 1];
      if r.Some? then Some(r.value + 1) else None
  }

  /** _map_sku_to_product: an explicit (channel, channel SKU) mapping wins; without
   *  one, the first product of the channel's supermarket whose SKU or barcode is the
   *  channel SKU; otherwise nothing. */
  function MapSkuToProduct(mappings: map<(ChannelId, string), SkuMapping>, products: seq<InventoryModels.Product>,
                           channel: Channel, sku: string): (r: Option<InventoryModels.Product>)
    ensures (channel.id, sku) in mappings ==> r == FindProduct(products, mappings[(channel.id, sku)].product)
    ensures (channel.id, sku) !in mappings && r.Some? ==>
              r.value in products && MatchesSku(r.value, channel.supermarket, sku)
    ensures (channel.id, sku) !in mappings && r.None? ==>
              forall p :: p in products ==> !MatchesSku(p, channel.supermarket, sku)
    ensures (channel.id, sku) !in mappings && r.Some? ==>
              var i := FirstSkuMatch(products, channel.supermarket, sku).value;
              products[i] == r.value && forall j :: 0 <= j < i ==> !MatchesSku(products[j], channel.supermarket, sku)
  {
    if (channel.id, sku) in mappings then FindProduct(products, mappings[(channel.id, sku)].product)
    else
      var i := FirstSkuMatch(products, channel.supermarket, sku);
      if i.Some? then Some(products[i.value]) else None
  }

  /** The bundle a line's SKU names in the order's supermarket, if any. */
  function FindBundle(bundles: seq<Bundle>, sm: SupermarketId, sku: string): (r: Option<Bundle>)
    ensures r.Some? ==> r.value in bundles && r.value.supermarket == sm && r.value.sku == sku
    ensures r.None? ==> forall b :: b in bundles ==> !(b.supermarket == sm && b.sku == sku)
  {
    if |bundles| == 0 then None
    else if bundles[0].supermarket == sm && bundles[0].sku == sku then Some(bundles[0])
    else FindBundle(bundles[1..], sm, sku)
  }

  /** `product.sku or product.barcode`: an empty or missing SKU falls back to the barcode. */
  function SkuOrBarcode(p: InventoryModels.Product): (r: string)
    ensures p.sku.Some? && p.sku.value != "" ==> r == p.sku.value
    ensures p.sku.None? || p.sku.value == "" ==> r == p.barcode
  {
    if p.sku.Some? && p.sku.value != "" then p.sku.value else p.barcode
  }

  /** Stores a new item (its total computed by the item's save) under the next id. */
  method AddItem(db: OrderDatabase, item: OrderItem) returns (saved: OrderItem)
    requires db.Valid()
    requires item.reservation.Some? ==> item.reservation.value in db.reservations
    modifies db`items, db`nextItemId
    ensures db.Valid()
    ensures saved == SaveItem(item.(id := old(db.nextItemId)))
    ensures db.items == old(db.items) + [saved]
    ensures db.nextItemId == old(db.nextItemId) + 1
  {
    saved := SaveItem(item.(id := db.nextItemId));
    db.items := db.items + [saved];
    db.nextItemId := db.nextItemId + 1;
  }

  /** _process_single_item: reserve the line's quantity (default 1) in the channel's
   *  default warehouse or the supermarket's default; the item is RESERVED, linked to
   *  the reservation, exactly when one was made, and BACKORDER otherwise. */
  method ProcessSingleItem(db: OrderDatabase, order: EnhancedOrder, channel: Channel,
                           product: InventoryModels.Product, data: ItemData, now: int) returns (item: OrderItem)
    requires db.Valid()
    modifies db`levels, db`reservations, db`movements, db`nextReservationId, db`items, db`nextItemId
    ensures db.Valid()
    ensures var r := Reserve(old(db.Ledger()), db.warehouses, order.supermarket, product.id, data.quantity.GetOr(1),
                             order.id, channel.defaultWarehouse, now);
            db.Ledger() == r.ledger && item.reservation == r.reservation
    ensures item.status == ItemReserved <==> item.reservation.Some?
    ensures item.status == ItemReserved || item.status == ItemBackorder
    ensures item.product == Some(product.id) && item.bundle.None? && item.order == order.id
    ensures item.quantity == data.quantity.GetOr(1)
    ensures item.sku == data.sku.GetOr(SkuOrBarcode(product))
    ensures item.unitPrice == data.price.GetOr(product.sellingPrice)
    ensures db.items == old(db.items) + [item]
  {
    var quantity := data.quantity.GetOr(1);
    var reservation := ReserveStock(db, order.supermarket, product.id, quantity, order.id, channel.defaultWarehouse, now);
    var status := if reservation.Some? then ItemReserved else ItemBackorder;
    item := AddItem(db, OrderItem(0, order.id, Some(product.id), None, data.sku.GetOr(SkuOrBarcode(product)),
                                  data.name.GetOr(product.name), quantity, data.price.GetOr(product.sellingPrice),
                                  None, reservation, status));
  }

  /** Append one move to a move list. */
  lemma {:induction false} MovedSnoc(moves: seq<(LevelKey, int)>, x: (LevelKey, int), k: LevelKey)
    ensures Moved(moves + [x], k) == Moved(moves, k) + (if x.0 == k then x.1 else 0)
  {
    assert (moves + [x])[..|moves|] == moves;
  }

  /** The reservation made for the `j`-th component of a bundle line. */
  function ComponentReservation(c: Component, w: WarehouseId, order: OrderId, quantity: int, now: int): Reservation
  {
    Reservation(c.product, w, order, c.quantity * quantity, ReservationActive, now + ReservationLifetime)
  }

  /** The moves of one reservation of `required` units at `w`: the counters stay
   *  `base` shifted by the move list, and the net moves still equal those of the
   *  reservations made. */
  lemma {:induction false} ComponentMoves(base: map<LevelKey, StockLevel>, moves: seq<(LevelKey, int)>, acquiredMoves: seq<(LevelKey, int)>,
                       l: Ledger, product: ProductId, w: WarehouseId, required: int, order: OrderId, now: int)
    requires Shifted(base, l.levels, moves)
    requires forall k :: Moved(moves, k) == Moved(acquiredMoves, k)
    ensures var r := ReserveIn(l, product, w, required, order, now);
            var moves' := moves + ReserveMoves(l, product, w, required);
            var acquiredMoves' := if r.reservation.Some? then acquiredMoves + [((product, w), required)] else acquiredMoves;
            Shifted(base, r.ledger.levels, moves') && forall k :: Moved(moves', k) == Moved(acquiredMoves', k)
  {
    var r := ReserveIn(l, product, w, required, order, now);
    ReserveKeepsShifted(base, moves, l, product, w, required, order, now);
    var step := ReserveMoves(l, product, w, required);
    var x := ((product, w), required);
    var acquiredMoves' := if r.reservation.Some? then acquiredMoves + [x] else acquiredMoves;
    forall k ensures Moved(moves + step, k) == Moved(acquiredMoves', k) {
      MovedAppend(moves, step, k);
      if r.reservation.Some? {
        MovedSnoc(acquiredMoves, x, k);
      }
    }
  }

  /** One step of the component loop: reserve `required` units of one component and
   *  record its moves. */
  method ReserveComponent(db: OrderDatabase, order: EnhancedOrder, channel: Channel, product: ProductId, required: int,
                          now: int, ghost base: map<LevelKey, StockLevel>, ghost moves: seq<(LevelKey, int)>,
                          ghost acquiredMoves: seq<(LevelKey, int)>)
    returns (ok: bool, ghost moves': seq<(LevelKey, int)>, ghost acquiredMoves': seq<(LevelKey, int)>)
    requires db.Valid()
    requires Shifted(base, db.levels, moves)
    requires forall k :: Moved(moves, k) == Moved(acquiredMoves, k)
    modifies db`levels, db`reservations, db`movements, db`nextReservationId
    ensures db.Valid()
    ensures Shifted(base, db.levels, moves')
    ensures forall k :: Moved(moves', k) == Moved(acquiredMoves', k)
    ensures !ok ==> acquiredMoves' == acquiredMoves && db.reservations == old(db.reservations)
                    && db.nextReservationId == old(db.nextReservationId)
    ensures ok ==> ResolveWarehouse(db.warehouses, order.supermarket, channel.defaultWarehouse).Some?
    ensures ok ==>
              var w := ResolveWarehouse(db.warehouses, order.supermarket, channel.defaultWarehouse);
              var id := old(db.nextReservationId);
              db.nextReservationId == id + 1 &&
              db.reservations == old(db.reservations)[id := Reservation(product, w.value, order.id, required,
                                                                        ReservationActive, now + ReservationLifetime)] &&
              acquiredMoves' == acquiredMoves + [((product, w.value), required)]
  {
    ghost var w := ResolveWarehouse(db.warehouses, order.supermarket, channel.defaultWarehouse);
    ghost var before := db.Ledger();
    var reservation := ReserveStock(db, order.supermarket, product, required, order.id, channel.defaultWarehouse, now);
    ok := reservation.Some?;
    moves' := moves;
    acquiredMoves' := acquiredMoves;
    if w.Some? {
      ComponentMoves(base, moves, acquiredMoves, before, product, w.value, required, order.id, now);
      moves' := moves + ReserveMoves(before, product, w.value, required);
      if ok {
        acquiredMoves' := acquiredMoves + [((product, w.value), required)];
      }
    }
  }

  /** The reservations with ids `first` .. `first + count - 1` are those made for the
   *  first `count` components, in order, and `acquiredMoves` records their moves. */
  ghost predicate Acquired(reservations: map<ReservationId, Reservation>, acquiredMoves: seq<(LevelKey, int)>,
                           first: nat, count: nat, components: seq<Component>, w: WarehouseId, order: OrderId,
                           quantity: int, now: int)
  {
    count <= |components| && |acquiredMoves| == count &&
    forall id :: first <= id < first + count ==>
      var c := components[id - first];
      id in reservations &&
      reservations[id] == ComponentReservation(c, w, order, quantity, now) &&
      acquiredMoves[id - first] == ((c.product, w), c.quantity * quantity)
  }

  lemma {:induction false} AcquiredStep(reservations: map<ReservationId, Reservation>, acquiredMoves: seq<(LevelKey, int)>,
                     first: nat, count: nat, components: seq<Component>, w: WarehouseId, order: OrderId,
                     quantity: int, now: int)
    requires Acquired(reservations, acquiredMoves, first, count, components, w, order, quantity, now)
    requires count < |components|
    ensures var c := components[count];
            var res := ComponentReservation(c, w, order, quantity, now);
            Acquired(reservations[first + count := res], acquiredMoves + [((c.product, w), c.quantity * quantity)],
                     first, count + 1, components, w, order, quantity, now)
  {
    var c := components[count];
    var res := ComponentReservation(c, w, order, quantity, now);
    var r := reservations[first + count := res];
    var m := acquiredMoves + [((c.product, w), c.quantity * quantity)];
    forall id | first <= id < first + count + 1
      ensures var c := components[id - first];
              id in r && r[id] == ComponentReservation(c, w, order, quantity, now) &&
              m[id - first] == ((c.product, w), c.quantity * quantity)
    {
      if id < first + count {
        assert m[id - first] == acquiredMoves[id - first];
      }
    }
  }

  /** Reserves `component.quantity * quantity` of every component in turn, stopping
   *  at the first one that cannot be reserved. The reservations made get the next
   *  consecutive ids; the counters moved are recorded in the ghost move lists. */
  method ReserveComponents(db: OrderDatabase, order: EnhancedOrder, channel: Channel, components: seq<Component>,
                           quantity: int, now: int)
    returns (acquired: nat, ghost moves: seq<(LevelKey, int)>, ghost acquiredMoves: seq<(LevelKey, int)>)
    requires db.Valid()
    modifies db`levels, db`reservations, db`movements, db`nextReservationId
    ensures db.Valid()
    ensures acquired <= |components| && |acquiredMoves| == acquired
    ensures db.nextReservationId == old(db.nextReservationId) + acquired
    ensures Shifted(old(db.levels), db.levels, moves)
    ensures forall k :: Moved(moves, k) == Moved(acquiredMoves, k)
    ensures forall id :: id in db.reservations <==>
              id in old(db.reservations) || old(db.nextReservationId) <= id < db.nextReservationId
    ensures forall id :: id in old(db.reservations) ==> db.reservations[id] == old(db.reservations)[id]
    ensures acquired > 0 ==> ResolveWarehouse(db.warehouses, order.supermarket, channel.defaultWarehouse).Some?
    ensures acquired > 0 ==>
              Acquired(db.reservations, acquiredMoves, old(db.nextReservationId), acquired, components,
                       ResolveWarehouse(db.warehouses, order.supermarket, channel.defaultWarehouse).value,
                       order.id, quantity, now)
  {
    var base := db.levels;
    var first := db.nextReservationId;
    ghost var w := ResolveWarehouse(db.warehouses, order.supermarket, channel.defaultWarehouse);
    acquired := 0;
    moves := [];
    acquiredMoves := [];
    var failed := false;
    while acquired < |components| && !failed
      invariant db.Valid()
      invariant acquired <= |components| && |acquiredMoves| == acquired
      invariant db.nextReservationId == first + acquired
      invariant Shifted(base, db.levels, moves)
      invariant forall k :: Moved(moves, k) == Moved(acquiredMoves, k)
      invariant forall id :: id in db.reservations <==> id in old(db.reservations) || first <= id < db.nextReservationId
      invariant forall id :: id in old(db.reservations) ==> db.reservations[id] == old(db.reservations)[id]
      invariant acquired > 0 ==> w.Some?
      invariant acquired > 0 ==>
                  Acquired(db.reservations, acquiredMoves, first, acquired, components, w.value, order.id, quantity, now)
      decreases |components| - acquired, if failed then 0 else 1
    {
      var ok;
      ghost var prevReservations := db.reservations;
      ghost var prevAcquired := acquiredMoves;
      var c := components[acquired];
      ok, moves, acquiredMoves := ReserveComponent(db, order, channel, c.product, c.quantity * quantity, now,
                                                   base, moves, acquiredMoves);
      if ok {
        ghost var res := ComponentReservation(c, w.value, order.id, quantity, now);
        assert db.reservations == prevReservations[first + acquired := res];
        assert acquiredMoves == prevAcquired + [((c.product, w.value), c.quantity * quantity)];
        AcquiredStep(prevReservations, prevAcquired, first, acquired, components, w.value, order.id, quantity, now);
        acquired := acquired + 1;
      } else {
        failed := true;
      }
    }
  }

  /** One step of the release loop: release one reservation and record the move
   *  that undoes it. */
  method ReleaseOne(db: OrderDatabase, id: ReservationId, ghost base: map<LevelKey, StockLevel>,
                    ghost all: seq<(LevelKey, int)>) returns (ghost all': seq<(LevelKey, int)>)
    requires db.Valid() && id in db.reservations
    requires Shifted(base, db.levels, all)
    requires forall i :: 0 <= i < |db.items| ==> db.items[i].reservation != Some(id)
    modifies db`levels, db`reservations, db`movements, db`items
    ensures db.Valid()
    ensures var res := old(db.reservations)[id];
            all' == all + [((res.product, res.warehouse), -res.quantity)]
    ensures Shifted(base, db.levels, all')
    ensures db.reservations == old(db.reservations) - {id}
    ensures db.items == old(db.items)
  {
    var res := db.reservations[id];
    ghost var before := db.Ledger();
    ReleaseKeepsShifted(base, all, before, id);
    ReleaseFound(before, id);
    NullReservationUnlinked(db.items, id);
    ReleaseReservation(db, id);
    all' := all + [((res.product, res.warehouse), -res.quantity)];
  }

  /** Undoing the `j`-th acquired move takes it off the balance still to undo. */
  lemma {:induction false} UndoStep(all: seq<(LevelKey, int)>, acquiredMoves: seq<(LevelKey, int)>, j: nat)
    requires j < |acquiredMoves|
    requires forall k :: Moved(all, k) == Moved(acquiredMoves, k) - Moved(acquiredMoves[..j], k)
    ensures forall k :: Moved(all + [(acquiredMoves[j].0, -acquiredMoves[j].1)], k) ==
                        Moved(acquiredMoves, k) - Moved(acquiredMoves[..j + 1], k)
  {
    assert acquiredMoves[..j + 1] == acquiredMoves[..j] + [acquiredMoves[j]];
    forall k ensures Moved(all + [(acquiredMoves[j].0, -acquiredMoves[j].1)], k) ==
                     Moved(acquiredMoves, k) - Moved(acquiredMoves[..j + 1], k) {
      MovedSnoc(acquiredMoves[..j], acquiredMoves[j], k);
      MovedSnoc(all, (acquiredMoves[j].0, -acquiredMoves[j].1), k);
    }
  }

  /** The ids `lo` .. `hi - 1`. */
  function IdRange(lo: nat, hi: nat): (r: set<ReservationId>)
    ensures forall id :: id in r <==> lo <= id < hi
    decreases hi
  {
    if hi <= lo then {} else IdRange(lo, hi - 1) + {hi - 1}
  }

  lemma {:induction false} IdRangeStep(m: map<ReservationId, Reservation>, first: nat, j: nat)
    ensures m - IdRange(first, first + j) - {first + j} == m - IdRange(first, first + j + 1)
  {
    assert IdRange(first, first + j + 1) == IdRange(first, first + j) + {first + j};
  }

  /** One turn of the release loop: release reservation `first + j` and take its
   *  move off the balance still to undo. */
  method ReleaseNext(db: OrderDatabase, first: nat, j: nat, ghost base: map<LevelKey, StockLevel>,
                     ghost all: seq<(LevelKey, int)>, ghost acquiredMoves: seq<(LevelKey, int)>,
                     ghost original: map<ReservationId, Reservation>)
    returns (ghost all': seq<(LevelKey, int)>)
    requires db.Valid()
    requires j < |acquiredMoves|
    requires first + j in original &&
             acquiredMoves[j] == ((original[first + j].product, original[first + j].warehouse),
                                  original[first + j].quantity)
    requires Releasing(db.levels, db.reservations, base, all, acquiredMoves, original, first, j)
    requires forall i :: 0 <= i < |db.items| && db.items[i].reservation.Some? ==> db.items[i].reservation.value < first
    modifies db`levels, db`reservations, db`movements, db`items
    ensures db.Valid()
    ensures Releasing(db.levels, db.reservations, base, all', acquiredMoves, original, first, j + 1)
    ensures db.items == old(db.items)
  {
    var id := first + j;
    assert db.reservations[id] == original[id];
    all' := ReleaseOne(db, id, base, all);
    UndoStep(all, acquiredMoves, j);
    IdRangeStep(original, first, j);
  }

  /** The state of the release loop after `j` releases: the counters are `base`
   *  shifted by `all`, whose net moves are those of the reservations not yet
   *  released, and the first `j` reservations are gone. */
  ghost predicate Releasing(levels: map<LevelKey, StockLevel>, reservations: map<ReservationId, Reservation>,
                            base: map<LevelKey, StockLevel>, all: seq<(LevelKey, int)>,
                            acquiredMoves: seq<(LevelKey, int)>, original: map<ReservationId, Reservation>,
                            first: nat, j: nat)
    requires j <= |acquiredMoves|
  {
    Shifted(base, levels, all) &&
    (forall k :: Moved(all, k) == Moved(acquiredMoves, k) - Moved(acquiredMoves[..j], k)) &&
    reservations == original - IdRange(first, first + j)
  }

  /** The release loop: afterwards every recorded move has been undone. */
  method ReleaseLoop(db: OrderDatabase, first: nat, count: nat, ghost base: map<LevelKey, StockLevel>,
                     ghost moves: seq<(LevelKey, int)>, ghost acquiredMoves: seq<(LevelKey, int)>)
    returns (ghost all: seq<(LevelKey, int)>)
    requires db.Valid()
    requires |acquiredMoves| == count
    requires Shifted(base, db.levels, moves)
    requires forall k :: Moved(moves, k) == Moved(acquiredMoves, k)
    requires forall id :: first <= id < first + count ==>
               id in db.reservations &&
               acquiredMoves[id - first] == ((db.reservations[id].product, db.reservations[id].warehouse),
                                             db.reservations[id].quantity)
    requires forall i :: 0 <= i < |db.items| && db.items[i].reservation.Some? ==> db.items[i].reservation.value < first
    modifies db`levels, db`reservations, db`movements, db`items
    ensures db.Valid()
    ensures Shifted(base, db.levels, all) && forall k :: Moved(all, k) == 0
    ensures db.reservations == old(db.reservations) - IdRange(first, first + count)
    ensures db.items == old(db.items)
  {
    var j := 0;
    all := moves;
    ghost var original := db.reservations;
    assert original - IdRange(first, first) == original;
    assert acquiredMoves[..0] == [];
    while j < count
      invariant db.Valid()
      invariant j <= count
      invariant Releasing(db.levels, db.reservations, base, all, acquiredMoves, original, first, j)
      invariant db.items == old(db.items)
    {
      all := ReleaseNext(db, first, j, base, all, acquiredMoves, original);
      j := j + 1;
    }
    assert acquiredMoves[..count] == acquiredMoves;
  }

  /** Releases the reservations with ids `first` .. `first + count - 1`, in order,
   *  undoing the moves recorded for them. */
  method ReleaseAcquired(db: OrderDatabase, first: nat, count: nat, ghost base: map<LevelKey, StockLevel>,
                         ghost moves: seq<(LevelKey, int)>, ghost acquiredMoves: seq<(LevelKey, int)>)
    requires db.Valid()
    requires |acquiredMoves| == count
    requires Shifted(base, db.levels, moves)
    requires forall k :: Moved(moves, k) == Moved(acquiredMoves, k)
    requires forall id :: first <= id < first + count ==>
               id in db.reservations &&
               acquiredMoves[id - first] == ((db.reservations[id].product, db.reservations[id].warehouse),
                                             db.reservations[id].quantity)
    requires forall i :: 0 <= i < |db.items| && db.items[i].reservation.Some? ==> db.items[i].reservation.value < first
    modifies db`levels, db`reservations, db`movements, db`items
    ensures db.Valid()
    ensures forall k :: k in base ==> k in db.levels && db.levels[k] == base[k]
    ensures forall k :: k in db.levels && k !in base ==> db.levels[k] == ZeroLevel
    ensures db.reservations == old(db.reservations) - IdRange(first, first + count)
    ensures db.items == old(db.items)
  {
    ghost var all := ReleaseLoop(db, first, count, base, moves, acquiredMoves);
    ShiftedBack(base, db.levels, all);
  }

  /** Removing the ids that were added on top of `before` gives `before` back. */
  lemma {:induction false} RemovedRangeRestores(before: map<ReservationId, Reservation>, after: map<ReservationId, Reservation>,
                             first: nat, n: nat)
    requires forall id :: id in before ==> id < first
    requires forall id :: id in after <==> id in before || first <= id < first + n
    requires forall id :: id in before ==> after[id] == before[id]
    ensures after - IdRange(first, first + n) == before
  {
  }

  /** Every counter is back to `base`; a record created on the way is left at zero. */
  ghost predicate Restored(base: map<LevelKey, StockLevel>, levels: map<LevelKey, StockLevel>)
  {
    (forall k :: k in base ==> k in levels && levels[k] == base[k]) &&
    (forall k :: k in levels && k !in base ==> levels[k] == ZeroLevel)
  }

  /** The stock side of _process_bundle_item: reserve `component.quantity * quantity`
   *  of each component in turn. When one component falls short, the reservations
   *  already made are released: the stock counters and the reservation table are as
   *  before (a counter record created on the way stays, at zero). Otherwise every
   *  component holds an active reservation with the next consecutive id. */
  method ReserveBundle(db: OrderDatabase, order: EnhancedOrder, channel: Channel, components: seq<Component>,
                       quantity: int, now: int) returns (reserved: bool)
    requires db.Valid()
    modifies db`levels, db`reservations, db`movements, db`nextReservationId, db`items
    ensures db.Valid()
    ensures db.items == old(db.items)
    ensures !reserved ==> Restored(old(db.levels), db.levels) && db.reservations == old(db.reservations)
    ensures reserved ==>
              db.nextReservationId == old(db.nextReservationId) + |components| &&
              (forall id :: id in db.reservations <==>
                 id in old(db.reservations) || old(db.nextReservationId) <= id < db.nextReservationId) &&
              (forall id :: id in old(db.reservations) ==> db.reservations[id] == old(db.reservations)[id])
    ensures reserved && |components| > 0 ==>
              ResolveWarehouse(db.warehouses, order.supermarket, channel.defaultWarehouse).Some? &&
              forall id :: old(db.nextReservationId) <= id < db.nextReservationId ==>
                id in db.reservations &&
                db.reservations[id] ==
                  ComponentReservation(components[id - old(db.nextReservationId)],
                                       ResolveWarehouse(db.warehouses, order.supermarket, channel.defaultWarehouse).value,
                                       order.id, quantity, now)
  {
    var first := db.nextReservationId;
    ghost var base := db.levels;
    ghost var before := db.reservations;
    var acquired, moves, acquiredMoves := ReserveComponents(db, order, channel, components, quantity, now);
    reserved := acquired == |components|;
    if !reserved {
      ghost var after := db.reservations;
      ReleaseAcquired(db, first, acquired, base, moves, acquiredMoves);
      RemovedRangeRestores(before, after, first, acquired);
    }
  }

  /** _process_bundle_item: the components are reserved (quantity defaults to 1) and
   *  the item is RESERVED when all of them are, BACKORDER when one falls short.
   *  Either way the item names the bundle, not a product, and is linked to no
   *  reservation. */
  method ProcessBundleItem(db: OrderDatabase, order: EnhancedOrder, channel: Channel, bundle: Bundle,
                           data: ItemData, now: int) returns (item: OrderItem)
    requires db.Valid()
    modifies db`levels, db`reservations, db`movements, db`nextReservationId, db`items, db`nextItemId
    ensures db.Valid()
    ensures item.status == ItemReserved || item.status == ItemBackorder
    ensures item.bundle == Some(bundle.id) && item.product.None? && item.reservation.None? && item.order == order.id
    ensures item.quantity == data.quantity.GetOr(1)
    ensures item.sku == data.sku.GetOr(bundle.sku) && item.unitPrice == data.price.GetOr(bundle.price)
    ensures db.items == old(db.items) + [item]
    ensures item.status == ItemBackorder ==>
              Restored(old(db.levels), db.levels) && db.reservations == old(db.reservations)
    ensures item.status == ItemReserved ==>
              db.nextReservationId == old(db.nextReservationId) + |bundle.components| &&
              (forall id :: id in db.reservations <==>
                 id in old(db.reservations) || old(db.nextReservationId) <= id < db.nextReservationId) &&
              (forall id :: id in old(db.reservations) ==> db.reservations[id] == old(db.reservations)[id])
    ensures item.status == ItemReserved && |bundle.components| > 0 ==>
              ResolveWarehouse(db.warehouses, order.supermarket, channel.defaultWarehouse).Some? &&
              forall id :: old(db.nextReservationId) <= id < db.nextReservationId ==>
                id in db.reservations &&
                db.reservations[id] ==
                  ComponentReservation(bundle.components[id - old(db.nextReservationId)],
                                       ResolveWarehouse(db.warehouses, order.supermarket, channel.defaultWarehouse).value,
                                       order.id, data.quantity.GetOr(1), now)
  {
    var quantity := data.quantity.GetOr(1);
    var reserved := ReserveBundle(db, order, channel, bundle.components, quantity, now);
    var status := if reserved then ItemReserved else ItemBackorder;
    item := AddItem(db, OrderItem(0, order.id, None, Some(bundle.id), data.sku.GetOr(bundle.sku),
                                  data.name.GetOr(bundle.name), quantity, data.price.GetOr(bundle.price),
                                  None, None, status));
  }

  /** _process_order_item: a line whose SKU maps to no product becomes an UNMAPPED
   *  item with no stock touched (SKU and name default to "", quantity to 1, price to
   *  0); a mapped line whose SKU is also a bundle of the order's supermarket is
   *  handled as a bundle, any other as a single product. */
  method ProcessOrderItem(db: OrderDatabase, order: EnhancedOrder, channel: Channel, data: ItemData, now: int)
    returns (item: OrderItem)
    requires db.Valid()
    modifies db`levels, db`reservations, db`movements, db`nextReservationId, db`items, db`nextItemId
    ensures db.Valid()
    ensures db.items == old(db.items) + [item]
    ensures item.order == order.id
    ensures var p := MapSkuToProduct(db.skuMappings, db.products, channel, data.sku.GetOr(""));
            p.None? ==>
              item.status == ItemUnmapped && item.product.None? && item.bundle.None? && item.reservation.None? &&
              item.sku == data.sku.GetOr("") && item.name == data.name.GetOr("") &&
              item.quantity == data.quantity.GetOr(1) && item.unitPrice == data.price.GetOr(0) &&
              db.Ledger() == old(db.Ledger())
    ensures var p := MapSkuToProduct(db.skuMappings, db.products, channel, data.sku.GetOr(""));
            var b := FindBundle(db.bundles, order.supermarket, data.sku.GetOr(""));
            p.Some? && b.Some? ==> item.bundle == Some(b.value.id) && item.product.None?
    ensures var p := MapSkuToProduct(db.skuMappings, db.products, channel, data.sku.GetOr(""));
            var b := FindBundle(db.bundles, order.supermarket, data.sku.GetOr(""));
            p.Some? && b.None? ==>
              item.product == Some(p.value.id) && item.bundle.None? &&
              db.Ledger() == Reserve(old(db.Ledger()), db.warehouses, order.supermarket, p.value.id,
                                     data.quantity.GetOr(1), order.id, channel.defaultWarehouse, now).ledger
    ensures item.status == ItemReserved || item.status == ItemBackorder || item.status == ItemUnmapped
  {
    var sku := data.sku.GetOr("");
    var product := MapSkuToProduct(db.skuMappings, db.products, channel, sku);
    if product.None? {
      item := AddItem(db, OrderItem(0, order.id, None, None, sku, data.name.GetOr(""), data.quantity.GetOr(1),
                                    data.price.GetOr(0), None, None, ItemUnmapped));
      return;
    }
    var bundle := FindBundle(db.bundles, order.supermarket, sku);
    if bundle.Some? {
      item := ProcessBundleItem(db, order, channel, bundle.value, data, now);
    } else {
      item := ProcessSingleItem(db, order, channel, product.value, data, now);
    }
  }
}
