/** The check Django's model constructor applies to `objects.create(**kwargs)` and
 *  the field names a query filter may use: a keyword that names no field of the
 *  model raises TypeError, a filter on an unknown field raises FieldError, and a
 *  foreign key given an instance of another model raises ValueError. Recorded here
 *  are the declared fields of the order models (orders/enhanced_models.py,
 *  inventory/models.py:180-203) and the keywords each call site of the order code
 *  passes, so that which call sites raise as written is a fact proved here and not
 *  an assertion of the prose. */
module ModelFields {

  /** A keyword argument or field name, spelled as in the source in snake case
   *  (`CustomerEmail` is `customer_email`). */
  datatype Keyword =
    Allocated | AllocatedWarehouse | AssignedWarehouse | AutomationRulesApplied | Available |
    AvailableQuantity | BillingAddress | Bundle | BundleComponents | Channel | ChannelSku | ConfirmedAt |
    CourierService | CreatedAt | CreatedBy | Currency | CustomerEmail | CustomerInfo | CustomerName |
    CustomerPhone | Damaged | DeliveredAt | DiscountAmount | ExpiresAt | ExternalOrderId | ExternalSku |
    FulfillmentStatus | Id | InternalSku | IsActive | LastUpdated | MaxStock | MovementType | Name |
    NewQuantity | Notes | OnOrder | Order | OrderNumber | PaymentMethod | PaymentStatus | PlacedAt |
    PreviousQuantity | PriceOverride | Product | Quantity | QuantityChange | RawData | RawPayload | Reason |
    Reference | ReorderPoint | Reservation | Reserved | ReservedQuantity | ShippedAt | ShippingAddress |
    ShippingAmount | ShippingInfo | ShippingLabelUrl | Sku | Status | StockOverride | Subtotal |
    Supermarket | Tags | TaxAmount | TotalAmount | TotalCost | TotalPrice | TrackingNumber | UnitCost |
    UnitPrice | UpdatedAt | Warehouse | ShipName | ShipPhone | ShipAddressLine1 | ShipAddressLine2 |
    ShipCity | ShipPostcode | ShipCountry | Courier | CourierAwb | TrackingId | ShippingStatus

  /** The keywords of a call that the model does not declare; `objects.create`
   *  raises TypeError (and `filter` FieldError) exactly when this is not empty. */
  function Unexpected(fields: set<Keyword>, kwargs: set<Keyword>): (r: set<Keyword>)
    ensures forall k :: k in r <==> k in kwargs && k !in fields
  {
    kwargs - fields
  }

  /** EnhancedOrder (orders/enhanced_models.py:266-368). */
  const EnhancedOrderFields: set<Keyword> := {
    Id, OrderNumber, ExternalOrderId, Supermarket, Channel, CustomerInfo, ShippingInfo,
    Status, PaymentStatus, FulfillmentStatus, Subtotal, TaxAmount, ShippingAmount,
    DiscountAmount, TotalAmount, Currency, AssignedWarehouse, CourierService, TrackingNumber,
    ShippingLabelUrl, Tags, Notes, RawPayload, AutomationRulesApplied, PlacedAt,
    ConfirmedAt, ShippedAt, DeliveredAt, CreatedAt, UpdatedAt}

  /** EnhancedOrderItem (orders/enhanced_models.py:370-422). */
  const OrderItemFields: set<Keyword> := {
    Id, Order, Product, Sku, Quantity, UnitPrice, TotalPrice, TaxAmount, DiscountAmount,
    Reservation, AllocatedWarehouse, Bundle, BundleComponents, Status, CreatedAt, UpdatedAt}

  /** StockLevel (orders/enhanced_models.py:102-139). */
  const StockLevelFields: set<Keyword> := {
    Id, Product, Warehouse, Available, Reserved, OnOrder, Allocated, Damaged, ReorderPoint,
    MaxStock, LastUpdated}

  /** StockReservation (orders/enhanced_models.py:141-173). */
  const ReservationFields: set<Keyword> := {
    Id, Order, Product, Warehouse, Quantity, Status, ExpiresAt, CreatedAt, UpdatedAt}

  /** SKUMapping (orders/enhanced_models.py:75-100). */
  const SkuMappingFields: set<Keyword> := {
    Id, Product, Channel, InternalSku, ChannelSku, IsActive, PriceOverride, StockOverride,
    CreatedAt, UpdatedAt}

  /** inventory's StockMovement (inventory/models.py:180-203). */
  const MovementFields: set<Keyword> := {
    Id, Product, MovementType, Quantity, PreviousQuantity, NewQuantity, UnitCost, TotalCost,
    Reference, Notes, CreatedBy, CreatedAt}

  /** orders.Order (orders/models.py:65-175), the model StockReservation.order
   *  points at. */
  const PlainOrderFields: set<Keyword> := {
    Id, Supermarket, Channel, ExternalOrderId, CustomerName, CustomerEmail, CustomerPhone,
    ShipName, ShipPhone, ShipAddressLine1, ShipAddressLine2, ShipCity, ShipPostcode, ShipCountry,
    AssignedWarehouse, Status, PaymentMethod, PaymentStatus, TotalAmount, Notes, RawPayload,
    Courier, CourierAwb, TrackingId, ShippingLabelUrl, ShippingStatus, CreatedBy, CreatedAt, UpdatedAt}

  /** The item columns that are NOT NULL and have no default
   *  (orders/enhanced_models.py:383-389). */
  const RequiredItemFields: set<Keyword> := {Order, Product, Sku, Quantity, UnitPrice, TotalPrice}

  /** The model StockReservation.order points at, and the one the order code hands it. */
  const ReservationOrderTarget: string := "orders.Order"
  const OrderCodeOrderModel: string := "orders.EnhancedOrder"

  /** Assigning an instance of model `given` to a foreign key to `target` raises ValueError. */
  predicate ForeignKeyRaises(target: string, given: string)
  {
    target != given
  }

  // The keywords each call site passes.

  /** The item create for an unmapped line (orders/services.py:208-215). */
  const UnmappedItemKwargs: set<Keyword> := {Order, Sku, Name, Quantity, UnitPrice, Status}
  /** The item create for a single product (orders/services.py:243-251). */
  const SingleItemKwargs: set<Keyword> :=
    {Order, Product, Sku, Name, Quantity, UnitPrice, Reservation, Status}
  /** The two item creates for a bundle (orders/services.py:286-294 and 297-305). */
  const BundleItemKwargs: set<Keyword> := {Order, Bundle, Sku, Name, Quantity, UnitPrice, Status}

  /** The order create of import_order_from_channel (orders/services.py:49-63). */
  const ServiceOrderKwargs: set<Keyword> := {
    Supermarket, Channel, OrderNumber, ExternalOrderId, CustomerName, CustomerEmail,
    CustomerPhone, ShippingAddress, BillingAddress, TotalAmount, Currency, PlacedAt, Status}

  /** The order create of import_channel_orders (orders/enhanced_views.py:280-293). */
  const ViewOrderKwargs: set<Keyword> := {
    Supermarket, Channel, ExternalOrderId, CustomerName, CustomerEmail, CustomerPhone,
    ShippingAddress, BillingAddress, TotalAmount, Currency, PaymentMethod, RawData}
  /** Its SKU mapping filter (orders/enhanced_views.py:298-301) and item create (303-309). */
  const ViewMappingFilter: set<Keyword> := {Channel, ExternalSku}
  const ViewItemKwargs: set<Keyword> := {Order, Product, Quantity, UnitPrice, ExternalSku}

  /** reserve_stock_for_order: the fields its level filter names (orders/enhanced_views.py:341-345)
   *  and its reservation create (355-361). */
  const CandidateFilterFields: set<Keyword> := {Product, Warehouse, AvailableQuantity}
  const ViewReservationKwargs: set<Keyword> := {Product, Warehouse, Order, ReservedQuantity, ExpiresAt}

  /** The movement create of update_stock_levels (orders/enhanced_views.py:130-137). */
  const AdjustmentKwargs: set<Keyword> :=
    {Product, Warehouse, MovementType, QuantityChange, Reason, CreatedBy}

  /** The reservation create of reserve_stock (orders/services.py:376-382). */
  const ServiceReservationKwargs: set<Keyword> := {Product, Warehouse, Order, Quantity, ExpiresAt}

  /** The movements of release_reservation and fulfill_order_item read
   *  `order_number` off the reservation's order (orders/services.py:427-428 and
   *  463-464). EnhancedOrder declares it, but the orders.Order the foreign key
   *  holds does not, so the read raises AttributeError. */
  lemma {:induction false} MovementReferenceRaises()
    ensures OrderNumber in EnhancedOrderFields
    ensures OrderNumber !in PlainOrderFields
  {
  }

  /** Without `name` the item creates would still not all be accepted: the unmapped
   *  and bundle creates leave the NOT NULL product unset, and every create leaves
   *  total_price to save(), which fills it only when the unit price and the
   *  quantity are both non-zero (orders/enhanced_models.py:419-422). */
  lemma {:induction false} ItemCreatesMissRequired()
    ensures RequiredItemFields - UnmappedItemKwargs == {Product, TotalPrice}
    ensures RequiredItemFields - BundleItemKwargs == {Product, TotalPrice}
    ensures RequiredItemFields - SingleItemKwargs == {TotalPrice}
  {
  }

  /** Every item create of the order service passes `name`, which the item model
   *  lacks, so each raises TypeError; without it each would be accepted. */
  lemma {:induction false} ItemCreatesRaise()
    ensures Unexpected(OrderItemFields, UnmappedItemKwargs) == {Name}
    ensures Unexpected(OrderItemFields, SingleItemKwargs) == {Name}
    ensures Unexpected(OrderItemFields, BundleItemKwargs) == {Name}
  {
  }

  /** import_order_from_channel's order create passes customer and address keywords
   *  the order model lacks. */
  lemma {:induction false} ServiceOrderCreateRaises()
    ensures Unexpected(EnhancedOrderFields, ServiceOrderKwargs) == {CustomerName, CustomerEmail, CustomerPhone, ShippingAddress, BillingAddress}
  {
  }

  /** import_channel_orders' order create passes those and two more. */
  lemma {:induction false} ViewOrderCreateRaises()
    ensures Unexpected(EnhancedOrderFields, ViewOrderKwargs) == {CustomerName, CustomerEmail, CustomerPhone, ShippingAddress, BillingAddress, PaymentMethod, RawData}
  {
  }

  /** The channel import's mapping filter and item create name `external_sku`, which
   *  neither model has. */
  lemma {:induction false} ViewLinesRaise()
    ensures Unexpected(SkuMappingFields, ViewMappingFilter) == {ExternalSku}
    ensures Unexpected(OrderItemFields, ViewItemKwargs) == {ExternalSku}
  {
  }

  /** reserve_stock_for_order filters on `available_quantity` and creates the
   *  reservation with `reserved_quantity`; neither is a field. */
  lemma {:induction false} ViewReservationRaises()
    ensures Unexpected(StockLevelFields, CandidateFilterFields) == {AvailableQuantity}
    ensures Unexpected(ReservationFields, ViewReservationKwargs) == {ReservedQuantity}
  {
  }

  /** update_stock_levels' movement create passes three keywords the movement lacks. */
  lemma {:induction false} AdjustmentRaises()
    ensures Unexpected(MovementFields, AdjustmentKwargs) == {Warehouse, QuantityChange, Reason}
  {
  }

  /** reserve_stock's reservation create names only fields, but its order is an
   *  EnhancedOrder while the foreign key expects an Order. */
  lemma {:induction false} ServiceReservationRaises()
    ensures Unexpected(ReservationFields, ServiceReservationKwargs) == {}
    ensures ForeignKeyRaises(ReservationOrderTarget, OrderCodeOrderModel)
  {
  }
}
