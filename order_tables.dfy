/** The order app's tables as one object whose fields the services update in place:
 *  warehouses, channels, the catalogue the channels map onto, SKU mappings, bundles,
 *  automation rules, the stock ledger, enhanced orders and their items, and the plain
 *  orders with their lines. */
module OrderTables {
  import opened Wrappers
  import InventoryModels
  import opened OrderModels
  import opened EnhancedModels
  import opened StockLedger

  class OrderDatabase {
    var warehouses: seq<Warehouse>
    var channels: map<ChannelId, Channel>
    /** Products in query order, so the first match of a lookup is `.first()`. */
    var products: seq<InventoryModels.Product>
    /** Keyed by (channel, channel SKU), the pair the schema keeps unique. */
    var skuMappings: map<(ChannelId, string), SkuMapping>
    var bundles: seq<Bundle>
    var rules: seq<AutomationRule>
    /** Keyed by (product, warehouse), the pair the schema keeps unique. */
    var levels: map<LevelKey, StockLevel>
    var reservations: map<ReservationId, Reservation>
    var movements: seq<InventoryModels.StockMovement>
    var nextReservationId: ReservationId
    var orders: seq<EnhancedOrder>
    var items: seq<OrderItem>
    var nextOrderId: OrderId
    var nextItemId: ItemId
    var plainOrders: map<OrderId, PlainOrder>
    var lineItems: seq<LineItem>

    /** The stock ledger part of the tables as one value. */
    function Ledger(): Ledger
      reads this
    {
      EnhancedModels.Ledger(levels, reservations, movements, nextReservationId)
    }

    /** Reservation ids are fresh, reservations and item references point at
     *  existing rows, warehouse ids and (supermarket, code) pairs are unique, and
     *  every supermarket has at most one default warehouse; a channel is stored
     *  under its own id. */
    ghost predicate Valid()
      reads this
    {
      StockValid(Ledger(), items) && WarehousesWellFormed(warehouses) && AtMostOneDefault(warehouses) &&
      forall c :: c in channels ==> channels[c].id == c
    }

    constructor()
      ensures Valid()
      ensures warehouses == [] && channels == map[] && products == [] && skuMappings == map[]
      ensures bundles == [] && rules == [] && levels == map[] && reservations == map[] && movements == []
      ensures orders == [] && items == [] && plainOrders == map[] && lineItems == []
    {
      warehouses := [];
      channels := map[];
      products := [];
      skuMappings := map[];
      bundles := [];
      rules := [];
      levels := map[];
      reservations := map[];
      movements := [];
      nextReservationId := 0;
      orders := [];
      items := [];
      nextOrderId := 0;
      nextItemId := 0;
      plainOrders := map[];
      lineItems := [];
    }

    /** Warehouse.save: a default warehouse first clears the flag on the other
     *  warehouses of its supermarket, then the row is written; the write is refused
     *  (`ok` false) when another warehouse of the supermarket has the same code, and
     *  the flags cleared before stay cleared. */
    method SaveWarehouse(w: Warehouse) returns (ok: bool)
      requires Valid()
      modifies this`warehouses
      ensures Valid()
      ensures warehouses == OrderModels.SaveWarehouse(old(warehouses), w).rows
      ensures ok == OrderModels.SaveWarehouse(old(warehouses), w).ok
      ensures ok && w.isDefault ==> DefaultWarehouse(warehouses, w.supermarket) == Some(w.id)
    {
      SaveKeepsSingleDefault(warehouses, w);
      SaveKeepsWellFormed(warehouses, w);
      if w.isDefault && OrderModels.SaveWarehouse(warehouses, w).ok {
        SavedDefaultIsFound(warehouses, w);
      }
      if w.isDefault {
        warehouses := ClearOtherDefaults(warehouses, w);
      }
      if CodeTaken(warehouses, w) {
        ok := false;
      } else {
        warehouses := Upsert(warehouses, w);
        ok := true;
      }
    }
  }
}
