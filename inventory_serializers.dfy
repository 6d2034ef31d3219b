/** Validation rules of the product serializers (inventory/serializers.py). */
module InventorySerializers {
  import opened Wrappers
  import opened InventoryModels

  /** The submitted attributes the cross-field check reads; None is an absent key. */
  datatype ProductAttrs = ProductAttrs(
    sellingPrice: Option<int>,
    costPrice: Option<int>,
    minStockLevel: Option<int>,
    maxStockLevel: Option<int>)

  datatype AttrsError = SellingBelowCost | MinAboveMax

  /** ProductCreateUpdateSerializer.validate: missing prices count as 0; the
   *  minimum is compared with the maximum only when a non-zero maximum is given
   *  (zero is falsy). The price check comes first. */
  function ValidateAttrs(a: ProductAttrs): (r: Option<AttrsError>)
    ensures r == Some(SellingBelowCost) <==> a.sellingPrice.GetOr(0) < a.costPrice.GetOr(0)
    ensures r == Some(MinAboveMax) <==>
      a.sellingPrice.GetOr(0) >= a.costPrice.GetOr(0) &&
      a.maxStockLevel.Some? && a.maxStockLevel.value != 0 && a.minStockLevel.GetOr(0) > a.maxStockLevel.value
    ensures a.maxStockLevel.None? || a.maxStockLevel == Some(0) ==> r != Some(MinAboveMax)
  {
    if a.sellingPrice.GetOr(0) < a.costPrice.GetOr(0) then Some(SellingBelowCost)
    else if a.maxStockLevel.Some? && a.maxStockLevel.value != 0 && a.minStockLevel.GetOr(0) > a.maxStockLevel.value then
      Some(MinAboveMax)
    else None
  }

  /** validate_barcode: a blank barcode is accepted (create() fills it in);
   *  otherwise no product other than the one being updated may carry it. */
  function BarcodeAccepted(value: string, instance: Option<ProductId>, products: map<ProductId, Product>): (r: bool)
    ensures value == "" ==> r
    ensures value != "" ==>
      (r <==> forall id :: id in products && products[id].barcode == value ==> instance == Some(id))
  {
    value == "" ||
    forall id :: id in products && products[id].barcode == value ==> instance == Some(id)
  }

  /** Updating a product may always keep its own barcode, whatever it is. */
  lemma {:induction false} KeepOwnBarcode(p: Product, products: map<ProductId, Product>)
    requires p.id in products && products[p.id] == p
    requires forall a, b :: a in products && b in products && a != b ==> products[a].barcode != products[b].barcode
    ensures BarcodeAccepted(p.barcode, Some(p.id), products)
  {
  }

  /** create(): the generated barcode is used only when none (or a blank one) is supplied. */
  function BarcodeForCreate(supplied: Option<string>, generated: string): (r: string)
    ensures supplied.Some? && supplied.value != "" ==> r == supplied.value
    ensures supplied.None? || supplied.value == "" ==> r == generated
  {
    if supplied.Some? && supplied.value != "" then supplied.value else generated
  }

  const AllowedBulkUpdateFields: set<string> :=
    {"category", "supplier", "price", "selling_price", "cost_price",
     "min_stock_level", "max_stock_level", "location", "is_active"}

  /** BulkProductUpdateSerializer.validate_updates: the first key outside the
   *  allowed fields, in the order given, is reported. */
  function FirstDisallowedField(keys: seq<string>): (r: Option<string>)
    ensures r.None? <==> forall i :: 0 <= i < |keys| ==> keys[i] in AllowedBulkUpdateFields
    ensures r.Some? ==> r.value in keys && r.value !in AllowedBulkUpdateFields
  {
    if |keys| == 0 then None
    else if keys[0] !in AllowedBulkUpdateFields then Some(keys[0])
    else
      var rest := FirstDisallowedField(keys[1..]);
      assert forall i :: 1 <= i < |keys| ==> keys[i] == keys[1..][i - 1];
      rest
  }
}
