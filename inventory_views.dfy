/** The stock-update endpoint of the inventory app (inventory/views.py):
 *  movement-type arithmetic, the movement record and the alert rules. */
module InventoryViews {
  import opened Wrappers
  import opened InventoryModels
  import opened InventoryTables

  function Abs(x: int): nat
  {
    if x < 0 then -x else x
  }

  predicate IsInbound(movementType: string)
  {
    movementType == "IN" || movementType == "RETURNED"
  }

  predicate IsOutbound(movementType: string)
  {
    movementType == "OUT" || movementType == "EXPIRED" || movementType == "DAMAGED"
  }

  /** The product's quantity after a movement, or None for a movement type the
   *  endpoint does not know. Inbound types add the magnitude of the change,
   *  outbound types subtract it but stop at zero, ADJUSTMENT sets the value. */
  function NewQuantity(movementType: string, previous: int, change: int): (r: Option<int>)
    ensures r.Some? <==> IsInbound(movementType) || IsOutbound(movementType) || movementType == "ADJUSTMENT"
    ensures movementType == "ADJUSTMENT" ==> r == Some(change)
    ensures IsInbound(movementType) ==> r.Some? && r.value - previous == Abs(change)
    ensures IsOutbound(movementType) ==> r.Some? && 0 <= r.value && r.value <= if previous < 0 then 0 else previous
    ensures IsOutbound(movementType) && Abs(change) <= previous ==> r == Some(previous - Abs(change))
    ensures r.Some? && movementType != "ADJUSTMENT" && previous >= 0 ==> r.value >= 0
  {
    if IsInbound(movementType) then Some(previous + Abs(change))
    else if IsOutbound(movementType) then
      Some(if previous - Abs(change) > 0 then previous - Abs(change) else 0)
    else if movementType == "ADJUSTMENT" then Some(change)
    else None
  }

  /** Receiving stock and then removing the same amount restores the quantity. */
  lemma {:induction false} InboundThenOutboundRestores(inbound: string, outbound: string, previous: int, change: int)
    requires IsInbound(inbound) && IsOutbound(outbound) && previous >= 0
    ensures NewQuantity(outbound, NewQuantity(inbound, previous, change).value, change) == Some(previous)
  {
  }

  /** The quantity stored on the movement: the requested change, except that an
   *  ADJUSTMENT records the difference it actually made. */
  function RecordedQuantity(movementType: string, change: int, previous: int, updated: int): (r: int)
    ensures movementType == "ADJUSTMENT" ==> previous + r == updated
  {
    if movementType != "ADJUSTMENT" then change else updated - previous
  }

  /** The total cost, only when a non-zero unit cost is given. */
  function TotalCost(unitCost: Option<int>, change: int): (r: Option<int>)
    ensures r.Some? <==> unitCost.Some? && unitCost.value != 0
    ensures r.Some? ==> r.value == unitCost.value * Abs(change)
  {
    if unitCost.Some? && unitCost.value != 0 then Some(unitCost.value * Abs(change)) else None
  }

  datatype RequestError = MissingTypeOrQuantity | InvalidMovementType
  datatype StockUpdateResponse = NotFound | BadRequest(error: RequestError) | Updated(previousQuantity: int, newQuantity: int)

  /** The alert types a product calls for, in the order they are considered. */
  function AlertTypesFor(p: Product, today: int): (r: seq<AlertType>)
    ensures LowStock in r <==> IsLowStock(p) && p.quantity > 0
    ensures OutOfStock in r <==> p.quantity == 0
    ensures ExpiringSoon in r <==> IsExpiringSoon(p, today)
    ensures Expired in r <==> IsExpired(p, today) && !IsExpiringSoon(p, today)
    ensures !(ExpiringSoon in r && Expired in r)
    ensures PriceChange !in r
    ensures forall i, j :: 0 <= i < j < |r| ==> r[i] != r[j]
  {
    (if IsLowStock(p) && p.quantity > 0 then [LowStock] else [])
    + (if p.quantity == 0 then [OutOfStock] else [])
    + (if IsExpiringSoon(p, today) then [ExpiringSoon] else if IsExpired(p, today) then [Expired] else [])
  }

  /** The priority each kind of alert is raised with. */
  function PriorityOf(t: AlertType): (r: AlertPriority)
    ensures r == Critical <==> t == Expired
    ensures r == High <==> t == OutOfStock
    ensures r == Medium <==> t in {LowStock, ExpiringSoon, PriceChange}
  {
    match t
    case LowStock => Medium
    case OutOfStock => High
    case ExpiringSoon => Medium
    case Expired => Critical
    case PriceChange => Medium
  }

  /** The unresolved alerts a product calls for. */
  function AlertsFor(p: Product, today: int): (r: seq<Alert>)
    ensures |r| == |AlertTypesFor(p, today)|
    ensures forall i :: 0 <= i < |r| ==>
      r[i] == Alert(p.id, AlertTypesFor(p, today)[i], PriorityOf(AlertTypesFor(p, today)[i]), false)
  {
    var types := AlertTypesFor(p, today);
    seq(|types|, i requires 0 <= i < |types| => Alert(p.id, types[i], PriorityOf(types[i]), false))
  }

  /** Some unresolved alert of type `t` exists for product `pid`. */
  predicate HasUnresolved(alerts: seq<Alert>, pid: ProductId, t: AlertType)
  {
    exists i :: 0 <= i < |alerts| && alerts[i].product == pid && alerts[i].alertType == t && !alerts[i].isResolved
  }

  /** Saving candidates one by one, each only when no unresolved alert of its
   *  product and type exists yet. */
  function SaveAlerts(existing: seq<Alert>, candidates: seq<Alert>): (r: seq<Alert>)
    ensures |existing| <= |r| <= |existing| + |candidates|
    ensures r[..|existing|] == existing
    ensures forall i :: |existing| <= i < |r| ==> r[i] in candidates
    decreases |candidates|
  {
    if |candidates| == 0 then existing
    else
      var c := candidates[0];
      SaveAlerts(if HasUnresolved(existing, c.product, c.alertType) then existing else existing + [c],
                 candidates[1..])
  }

  /** No two unresolved alerts share a product and a type. */
  predicate UniqueUnresolved(alerts: seq<Alert>)
  {
    forall i, j :: 0 <= i < j < |alerts| && !alerts[i].isResolved && !alerts[j].isResolved ==>
      alerts[i].product != alerts[j].product || alerts[i].alertType != alerts[j].alertType
  }

  /** Saving alerts keeps every existing alert in place and never creates a
   *  second unresolved alert of the same product and type. */
  lemma {:induction false} SaveAlertsKeepsUnique(existing: seq<Alert>, candidates: seq<Alert>)
    requires UniqueUnresolved(existing)
    ensures UniqueUnresolved(SaveAlerts(existing, candidates))
    ensures |SaveAlerts(existing, candidates)| >= |existing|
    ensures SaveAlerts(existing, candidates)[..|existing|] == existing
    decreases |candidates|
  {
    if |candidates| > 0 {
      var c := candidates[0];
      var next := if HasUnresolved(existing, c.product, c.alertType) then existing else existing + [c];
      if !HasUnresolved(existing, c.product, c.alertType) {
        forall i, j | 0 <= i < j < |next| && !next[i].isResolved && !next[j].isResolved
          ensures next[i].product != next[j].product || next[i].alertType != next[j].alertType
        {
          if j == |existing| {
            assert next[i] == existing[i];
          }
        }
      }
      SaveAlertsKeepsUnique(next, candidates[1..]);
    }
  }

  /** After saving, every unresolved candidate has an unresolved alert of its type. */
  lemma {:induction false} SaveAlertsCovers(existing: seq<Alert>, candidates: seq<Alert>)
    requires forall i :: 0 <= i < |candidates| ==> !candidates[i].isResolved
    ensures forall i :: 0 <= i < |candidates| ==>
      HasUnresolved(SaveAlerts(existing, candidates), candidates[i].product, candidates[i].alertType)
    decreases |candidates|
  {
    if |candidates| > 0 {
      var c := candidates[0];
      var next := if HasUnresolved(existing, c.product, c.alertType) then existing else existing + [c];
      assert HasUnresolved(next, c.product, c.alertType) by {
        if !HasUnresolved(existing, c.product, c.alertType) {
          assert next[|existing|] == c;
        }
      }
      SaveAlertsCovers(next, candidates[1..]);
      SaveAlertsKeepsPresent(next, candidates[1..], c.product, c.alertType);
      forall i | 1 <= i < |candidates|
        ensures HasUnresolved(SaveAlerts(existing, candidates), candidates[i].product, candidates[i].alertType)
      {
        assert candidates[i] == candidates[1..][i - 1];
      }
    }
  }

  lemma {:induction false} SaveAlertsKeepsPresent(existing: seq<Alert>, candidates: seq<Alert>, pid: ProductId, t: AlertType)
    requires HasUnresolved(existing, pid, t)
    ensures HasUnresolved(SaveAlerts(existing, candidates), pid, t)
    decreases |candidates|
  {
    if |candidates| > 0 {
      var c := candidates[0];
      var next := if HasUnresolved(existing, c.product, c.alertType) then existing else existing + [c];
      var i :| 0 <= i < |existing| && existing[i].product == pid && existing[i].alertType == t && !existing[i].isResolved;
      assert next[i] == existing[i];
      SaveAlertsKeepsPresent(next, candidates[1..], pid, t);
    }
  }

  /** check_and_create_alerts: saves each alert the product calls for unless an
   *  unresolved alert of that type already exists for it. */
  method CheckAndCreateAlerts(store: InventoryStore, p: Product, today: int)
    modifies store`alerts
    ensures store.alerts == SaveAlerts(old(store.alerts), AlertsFor(p, today))
  {
    var candidates := AlertsFor(p, today);
    var i := 0;
    while i < |candidates|
      invariant 0 <= i <= |candidates|
      invariant SaveAlerts(store.alerts, candidates[i..]) == SaveAlerts(old(store.alerts), candidates)
    {
      var alert := candidates[i];
      assert candidates[i..][1..] == candidates[i + 1..];
      if !HasUnresolved(store.alerts, alert.product, alert.alertType) {
        store.alerts := store.alerts + [alert];
      }
      i := i + 1;
    }
  }

  /** ProductStockUpdateView.post for a product of one of the user's supermarkets. */
  method PostStockUpdate(store: InventoryStore, ownedSupermarkets: set<SupermarketId>, productId: ProductId,
                         movementType: string, change: int, unitCost: Option<int>, today: int)
    returns (resp: StockUpdateResponse)
    requires store.Valid()
    modifies store`products, store`movements, store`alerts
    ensures store.Valid()
    ensures !(productId in old(store.products) && old(store.products)[productId].supermarket in ownedSupermarkets) ==>
      resp == NotFound && unchanged(store)
    ensures productId in old(store.products) && old(store.products)[productId].supermarket in ownedSupermarkets ==>
      var p := old(store.products)[productId];
      if movementType == "" || change == 0 then
        resp == BadRequest(MissingTypeOrQuantity) && unchanged(store)
      else if NewQuantity(movementType, p.quantity, change).None? then
        resp == BadRequest(InvalidMovementType) && unchanged(store)
      else
        var n := NewQuantity(movementType, p.quantity, change).value;
        var updated := p.(quantity := n);
        && resp == Updated(p.quantity, n)
        && store.products == old(store.products)[productId := updated]
        && store.movements == old(store.movements) +
             [StockMovement(productId, movementType, RecordedQuantity(movementType, change, p.quantity, n),
                            p.quantity, n, unitCost, TotalCost(unitCost, change))]
        && store.alerts == SaveAlerts(old(store.alerts), AlertsFor(updated, today))
  {
    if productId !in store.products || store.products[productId].supermarket !in ownedSupermarkets {
      return NotFound;
    }
    var product := store.products[productId];
    if movementType == "" || change == 0 {
      return BadRequest(MissingTypeOrQuantity);
    }
    var previous := product.quantity;
    var newQuantity := NewQuantity(movementType, previous, change);
    if newQuantity.None? {
      return BadRequest(InvalidMovementType);
    }
    product := product.(quantity := newQuantity.value);
    store.products := store.products[productId := product];
    var movement := StockMovement(productId, movementType,
                                  RecordedQuantity(movementType, change, previous, newQuantity.value),
                                  previous, newQuantity.value, unitCost, TotalCost(unitCost, change));
    store.movements := store.movements + [movement];
    CheckAndCreateAlerts(store, product, today);
    resp := Updated(previous, newQuantity.value);
  }
}
