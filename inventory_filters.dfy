/** The special boolean filters of the product list (inventory/filters.py).
 *  Each keeps the queryset's order; a false value leaves it unchanged. */
module InventoryFilters {
  import opened InventoryModels
  import Seqs

  function FilterLowStock(products: seq<Product>, value: bool): (r: seq<Product>)
    ensures !value ==> r == products
    ensures value ==> forall p :: p in r <==> p in products && IsLowStock(p)
  {
    if value then Seqs.Filter(products, (p: Product) => p.quantity <= p.minStockLevel) else products
  }

  function FilterExpired(products: seq<Product>, value: bool, today: int): (r: seq<Product>)
    ensures !value ==> r == products
    ensures value ==> forall p :: p in r <==> p in products && IsExpired(p, today)
  {
    if value then Seqs.Filter(products, (p: Product) => p.expiryDate < today) else products
  }

  /** The window is written on dates, `today < expiry <= today + 7`, and agrees
   *  with the model's day-count property. */
  function FilterExpiringSoon(products: seq<Product>, value: bool, today: int): (r: seq<Product>)
    ensures !value ==> r == products
    ensures value ==> forall p :: p in r <==> p in products && IsExpiringSoon(p, today)
  {
    var soon := today + 7;
    if value then Seqs.Filter(products, (p: Product) => p.expiryDate <= soon && p.expiryDate > today) else products
  }

  function FilterOutOfStock(products: seq<Product>, value: bool): (r: seq<Product>)
    ensures !value ==> r == products
    ensures value ==> forall p :: p in r <==> p in products && p.quantity == 0
  {
    if value then Seqs.Filter(products, (p: Product) => p.quantity == 0) else products
  }

  /** A product listed as expiring soon is never in the expired list. */
  lemma {:induction false} ExpiringSoonAndExpiredDisjoint(products: seq<Product>, today: int)
    ensures forall p :: p in FilterExpiringSoon(products, true, today) ==> p !in FilterExpired(products, true, today)
  {
  }
}
