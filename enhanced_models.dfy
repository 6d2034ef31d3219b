/** The multi-channel order records (orders/enhanced_models.py): channels, SKU
 *  mappings, per-warehouse stock levels, reservations, bundles, automation
 *  rules, enhanced orders and their items. */
module EnhancedModels {
  import opened Wrappers
  import Seqs
  import InventoryModels
  import opened OrderModels

  type ProductId = InventoryModels.ProductId
  type ChannelId = nat
  type ReservationId = nat
  type BundleId = nat
  type RuleId = nat
  type ItemId = nat

  datatype ChannelType = Shopify | Amazon | Ebay | Etsy | WooCommerce | Magento | Daraz | Pos | Manual | Website

  datatype Channel = Channel(
    id: ChannelId,
    supermarket: SupermarketId,
    channelType: ChannelType,
    defaultWarehouse: Option<WarehouseId>,
    webhookSecret: string)

  /** A channel SKU mapped to a product. The table is keyed by (channel, channel SKU),
   *  the pair the schema declares unique. */
  datatype SkuMapping = SkuMapping(product: ProductId, channel: ChannelId, internalSku: string, channelSku: string)

  /** Counters of one product in one warehouse. The table is keyed by
   *  (product, warehouse), the pair the schema declares unique. */
  datatype StockLevel = StockLevel(available: int, reserved: int, onOrder: int, allocatedUnits: int, damaged: int)

  type LevelKey = (ProductId, WarehouseId)

  /** A level as get_or_create makes it. */
  const ZeroLevel := StockLevel(0, 0, 0, 0, 0)

  /** All units the warehouse physically holds for the product. */
  function Total(l: StockLevel): int
  {
    l.available + l.reserved + l.allocatedUnits + l.damaged
  }

  /** available - reserved, not clamped at zero. */
  function Sellable(l: StockLevel): int
  {
    l.available - l.reserved
  }

  /** Moving units between available and reserved never changes the total, and the
   *  sellable figure drops by twice the amount moved: reserved units are already
   *  missing from available and are subtracted again. */
  lemma {:induction false} MoveToReservedKeepsTotal(l: StockLevel, q: int)
    ensures Total(l.(available := l.available - q, reserved := l.reserved + q)) == Total(l)
    ensures Sellable(l.(available := l.available - q, reserved := l.reserved + q)) == Sellable(l) - 2 * q
  {
  }

  /** Sellable is not clamped at zero: it is negative exactly when more is reserved
   *  than is available, and zero exactly when the two are equal. */
  lemma {:induction false} SellableSign(l: StockLevel)
    ensures Sellable(l) < 0 <==> l.reserved > l.available
    ensures Sellable(l) == 0 <==> l.reserved == l.available
    ensures Sellable(StockLevel(1, 3, 0, 0, 0)) == -2
  {
  }

  datatype ReservationStatus = ReservationActive | ReservationFulfilled | ReservationCancelled | ReservationExpired

  datatype Reservation = Reservation(
    product: ProductId,
    warehouse: WarehouseId,
    order: OrderId,
    quantity: int,
    status: ReservationStatus,
    expiresAt: int)

  /** One component of a bundle; the schema keeps (bundle, product) unique. */
  datatype Component = Component(product: ProductId, quantity: nat, isOptional: bool)

  datatype Bundle = Bundle(
    id: BundleId,
    supermarket: SupermarketId,
    name: string,
    sku: string,
    price: int,
    components: seq<Component>)

  /** Each product appears at most once among a bundle's components. */
  predicate ComponentsUnique(b: Bundle)
  {
    forall i, j :: 0 <= i < j < |b.components| ==> b.components[i].product != b.components[j].product
  }

  /** (supermarket, sku) identifies at most one bundle. */
  predicate BundlesUnique(bundles: seq<Bundle>)
  {
    forall i, j :: 0 <= i < j < |bundles| ==>
      bundles[i].supermarket != bundles[j].supermarket || bundles[i].sku != bundles[j].sku
  }

  datatype TriggerEvent = OrderPlaced | StockLow | OrderShipped | PaymentReceived

  /** The conditions a rule may carry; an absent key is None. */
  datatype RuleConditions = RuleConditions(
    minOrderValue: Option<int>,
    channelTypes: Option<seq<ChannelType>>,
    customerEmailContains: Option<string>)

  /** The actions a rule may carry; an absent key is None. */
  datatype RuleActions = RuleActions(
    assignWarehouse: Option<WarehouseId>,
    setPriority: Option<string>,
    addTags: Option<seq<string>>,
    sendNotification: bool)

  datatype AutomationRule = AutomationRule(
    id: RuleId,
    supermarket: SupermarketId,
    name: string,
    isActive: bool,
    triggerEvent: TriggerEvent,
    conditions: RuleConditions,
    actions: RuleActions,
    priority: int)

  /** ON_HOLD is assigned by the order views although the declared choices lack it. */
  datatype OrderStatus = Pending | Confirmed | Processing | Shipped | Delivered | Returned | Cancelled | OnHold

  /** FULFILLED and PARTIAL are assigned by the webhooks although the declared choices lack them. */
  datatype FulfillmentStatus =
    FulfillmentPending | FulfillmentProcessing | FulfillmentShipped | FulfillmentDelivered | FulfillmentFailed
    | FulfillmentFulfilled | FulfillmentPartial

  datatype PaymentStatus = PaymentPending | Paid | Refunded | PaymentFailed | PartiallyPaid

  /** A shortage note left on an order: which product, and how many units short. */
  datatype ShortageNote = ShortageNote(product: Option<ProductId>, shortBy: int)

  datatype EnhancedOrder = EnhancedOrder(
    id: OrderId,
    orderNumber: string,
    externalOrderId: Option<string>,
    supermarket: SupermarketId,
    channel: ChannelId,
    status: OrderStatus,
    paymentStatus: PaymentStatus,
    fulfillmentStatus: FulfillmentStatus,
    totalAmount: int,
    customerEmail: Option<string>,
    assignedWarehouse: Option<WarehouseId>,
    priority: Option<string>,
    tags: seq<string>,
    notes: Option<ShortageNote>,
    placedAt: Option<int>)

  /** BACKORDER, UNMAPPED and FULFILLED are assigned by the services although the
   *  declared choices lack them. */
  datatype ItemStatus =
    ItemPending | ItemReserved | ItemAllocated | ItemPicked | ItemPacked | ItemShipped
    | ItemBackorder | ItemUnmapped | ItemFulfilled

  /** The six statuses the item model declares. */
  predicate DeclaredItemStatus(s: ItemStatus)
  {
    s in {ItemPending, ItemReserved, ItemAllocated, ItemPicked, ItemPacked, ItemShipped}
  }

  datatype OrderItem = OrderItem(
    id: ItemId,
    order: OrderId,
    product: Option<ProductId>,
    bundle: Option<BundleId>,
    sku: string,
    name: string,
    quantity: int,
    unitPrice: int,
    totalPrice: Option<int>,
    reservation: Option<ReservationId>,
    status: ItemStatus)

  /** EnhancedOrderItem.save: the total is recomputed only when unit price and
   *  quantity are both non-zero (truthy); otherwise the stored total is kept. */
  function SaveItem(item: OrderItem): (r: OrderItem)
    ensures item.unitPrice != 0 && item.quantity != 0 ==> r.totalPrice == Some(item.unitPrice * item.quantity)
    ensures item.unitPrice == 0 || item.quantity == 0 ==> r.totalPrice == item.totalPrice
    ensures r.(totalPrice := item.totalPrice) == item
  {
    if item.unitPrice != 0 && item.quantity != 0 then item.(totalPrice := Some(item.unitPrice * item.quantity))
    else item
  }

  /** The order number save() generates from the clock, in whole seconds. */
  function GeneratedOrderNumber(nowSeconds: nat): (r: string)
    ensures |r| > 4 && r[..4] == "ORD-" && Seqs.AllDigits(r[4..])
  {
    "ORD-" + Seqs.NatToString(nowSeconds)
  }

  /** EnhancedOrder.save: an empty order number and a missing placed_at are filled
   *  from the clock; values already present are kept. Nothing else changes. */
  function SaveOrder(o: EnhancedOrder, nowSeconds: nat): (r: EnhancedOrder)
    ensures o.orderNumber != "" ==> r.orderNumber == o.orderNumber
    ensures o.orderNumber == "" ==> r.orderNumber == GeneratedOrderNumber(nowSeconds)
    ensures r.orderNumber != ""
    ensures o.placedAt.Some? ==> r.placedAt == o.placedAt
    ensures o.placedAt.None? ==> r.placedAt == Some(nowSeconds as int)
    ensures r.(orderNumber := o.orderNumber, placedAt := o.placedAt) == o
  {
    o.(orderNumber := if o.orderNumber == "" then GeneratedOrderNumber(nowSeconds) else o.orderNumber,
       placedAt := if o.placedAt.None? then Some(nowSeconds as int) else o.placedAt)
  }

  /** Saving twice is the same as saving once, at any later clock reading. */
  lemma {:induction false} SaveOrderIdempotent(o: EnhancedOrder, t1: nat, t2: nat)
    ensures SaveOrder(SaveOrder(o, t1), t2) == SaveOrder(o, t1)
  {
  }

  /** The counters, reservations, movement ledger and next reservation id. */
  datatype Ledger = Ledger(
    levels: map<LevelKey, StockLevel>,
    reservations: map<ReservationId, Reservation>,
    movements: seq<InventoryModels.StockMovement>,
    nextReservationId: ReservationId)

  /** Reservation ids are below the next one, and every reservation's counter
   *  record exists. */
  predicate LedgerValid(l: Ledger)
  {
    forall id :: id in l.reservations ==>
      id < l.nextReservationId && (l.reservations[id].product, l.reservations[id].warehouse) in l.levels
  }
}
