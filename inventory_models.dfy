/** Products, categories, stock movements and alerts of the inventory app
 *  (inventory/models.py). Money is in integer cents, dates are day numbers. */
module InventoryModels {
  import opened Wrappers

  type ProductId = nat
  type SupermarketId = nat

  /** A category, with the name of its parent category when it has one. */
  datatype Category = Category(name: string, parentName: Option<string>)

  datatype Product = Product(
    id: ProductId,
    name: string,
    description: Option<string>,
    brand: Option<string>,
    barcode: string,
    sku: Option<string>,
    costPrice: int,
    sellingPrice: int,
    price: int,
    quantity: int,
    minStockLevel: int,
    maxStockLevel: Option<int>,
    weight: Option<string>,
    origin: Option<string>,
    location: Option<string>,
    expiryDate: int,
    halalCertified: bool,
    supermarket: SupermarketId,
    isActive: bool)

  /** One row of the stock-movement ledger. `movementType` is free text:
   *  the order services write RESERVATION and RELEASE, which the
   *  declared choices do not list. */
  datatype StockMovement = StockMovement(
    product: ProductId,
    movementType: string,
    quantity: int,
    previousQuantity: int,
    newQuantity: int,
    unitCost: Option<int>,
    totalCost: Option<int>)

  datatype AlertType = LowStock | ExpiringSoon | Expired | OutOfStock | PriceChange
  datatype AlertPriority = Low | Medium | High | Critical

  datatype Alert = Alert(product: ProductId, alertType: AlertType, priority: AlertPriority, isResolved: bool)

  /** "parent > name" for a sub-category, the bare name otherwise. */
  function FullName(c: Category): (r: string)
    ensures c.parentName.None? ==> r == c.name
    ensures c.parentName.Some? ==> r == c.parentName.value + " > " + c.name
  {
    match c.parentName
    case None => c.name
    case Some(parent) => parent + " > " + c.name
  }

  /** Whatever the parent, the full name ends with the category's own name. */
  lemma {:induction false} FullNameEndsWithName(c: Category)
    ensures |FullName(c)| >= |c.name|
    ensures FullName(c)[|FullName(c)| - |c.name|..] == c.name
  {
    if c.parentName.Some? {
      var pre := c.parentName.value + " > ";
      assert FullName(c) == pre + c.name;
      assert (pre + c.name)[|pre|..] == c.name;
    }
  }

  predicate IsLowStock(p: Product)
  {
    p.quantity <= p.minStockLevel
  }

  predicate IsExpired(p: Product, today: int)
  {
    p.expiryDate < today
  }

  function DaysUntilExpiry(p: Product, today: int): int
  {
    p.expiryDate - today
  }

  predicate IsExpiringSoon(p: Product, today: int)
  {
    0 < DaysUntilExpiry(p, today) <= 7
  }

  /** A product that has expired is never also expiring soon, and a product
   *  expires exactly when its remaining days are negative. */
  lemma {:induction false} ExpiryStatesExclusive(p: Product, today: int)
    ensures !(IsExpired(p, today) && IsExpiringSoon(p, today))
    ensures IsExpired(p, today) <==> DaysUntilExpiry(p, today) < 0
  {
  }

  /** Profit margin in percent. The source divides decimals; here the value
   *  is an exact rational. */
  function ProfitMargin(p: Product): (r: real)
    ensures p.costPrice <= 0 ==> r == 0.0
    ensures p.costPrice > 0 ==> r * (p.costPrice as real) == ((p.sellingPrice - p.costPrice) as real) * 100.0
    ensures p.costPrice > 0 ==> (r > 0.0 <==> p.sellingPrice > p.costPrice)
  {
    if p.costPrice > 0 then
      ((p.sellingPrice - p.costPrice) as real / p.costPrice as real) * 100.0
    else 0.0
  }

  /** Stock value at the current price; never negative for a valid product. */
  function TotalValue(p: Product): (r: int)
    ensures p.quantity >= 0 && p.price >= 0 ==> r >= 0
    ensures p.quantity == 0 || p.price == 0 ==> r == 0
    ensures p.quantity > 0 ==> (r > 0 <==> p.price > 0)
  {
    p.quantity * p.price
  }
}

/** The inventory tables: products by id, the movement ledger and the alert
 *  table, each in creation order. */
module InventoryTables {
  import opened InventoryModels

  class InventoryStore {
    var products: map<ProductId, Product>
    var movements: seq<StockMovement>
    var alerts: seq<Alert>
    var nextProductId: ProductId

    /** Every product is filed under its own id, and fresh ids lie above the used ones. */
    ghost predicate Valid()
      reads this
    {
      forall id :: id in products ==> products[id].id == id && id < nextProductId
    }

    constructor ()
      ensures Valid()
      ensures products == map[] && movements == [] && alerts == [] && nextProductId == 0
    {
      products := map[];
      movements := [];
      alerts := [];
      nextProductId := 0;
    }
  }
}
