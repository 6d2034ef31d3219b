/** ProductImporter (file_processing/services.py): extracted products of an
 *  upload session become inventory products, updating the product that
 *  already carries the barcode in the supermarket or creating a new one. */
module ProductImport {
  import opened Wrappers
  import opened Seqs
  import opened Texts
  import opened FileRows
  import opened UploadSessions

  /** An inventory product as the importer writes it (inventory/models.py,
   *  Product), with decimal prices. */
  datatype CatalogProduct = CatalogProduct(
    id: nat,
    name: string,
    barcode: string,
    category: Option<string>,
    supplier: Option<string>,
    brand: Option<string>,
    description: Option<string>,
    costPrice: Dec,
    sellingPrice: Dec,
    price: Dec,
    quantity: int,
    minStockLevel: int,
    weight: Option<string>,
    origin: Option<string>,
    expiryDate: int,
    location: Option<string>,
    halalCertified: bool,
    halalCertificationBody: Option<string>,
    supermarket: nat,
    createdBy: nat)

  /** Barcodes are unique across the whole product table. */
  ghost predicate BarcodesUnique(products: seq<CatalogProduct>)
  {
    forall k, l :: 0 <= k < l < |products| ==> products[k].barcode != products[l].barcode
  }

  // ---------------------------------------------------------------------
  // Python truthiness of the extracted fields

  predicate TextTruthy(s: Option<string>)
  {
    s.Some? && s.value != ""
  }

  predicate DecTruthy(d: Option<Dec>)
  {
    d.Some? && d.value.m != 0
  }

  const Zero := Dec(0, 0)

  /** `a or b` on optional decimals. */
  function DecOr(a: Option<Dec>, b: Dec): Dec
  {
    if DecTruthy(a) then a.value else b
  }

  // ---------------------------------------------------------------------
  // Update

  /** update_existing_product as a value: the name, description, brand,
   *  prices, weight, origin and location are overwritten only by a truthy
   *  extracted value, the quantity whenever it is present. */
  function Merged(p: CatalogProduct, e: ExtractedProduct): CatalogProduct
  {
    MergedPrices(MergedText(p, e), e)
  }

  /** The text fields of the merge. */
  function MergedText(p: CatalogProduct, e: ExtractedProduct): CatalogProduct
  {
    p.(name := if e.name != "" then e.name else p.name,
       description := if TextTruthy(e.description) then e.description else p.description,
       brand := if TextTruthy(e.brand) then e.brand else p.brand,
       weight := if TextTruthy(e.weight) then e.weight else p.weight,
       origin := if TextTruthy(e.origin) then e.origin else p.origin,
       location := if TextTruthy(e.location) then e.location else p.location)
  }

  /** The prices and the quantity of the merge. */
  function MergedPrices(p: CatalogProduct, e: ExtractedProduct): CatalogProduct
  {
    p.(costPrice := DecOr(e.costPrice, p.costPrice),
       sellingPrice := DecOr(e.sellingPrice, p.sellingPrice),
       price := DecOr(e.price, p.price),
       quantity := e.quantity.GetOr(p.quantity))
  }

  /** The merge never touches the identity, barcode, category, supplier,
   *  dates, stock threshold, halal data or owner; an empty extracted field
   *  keeps the old value, and a zero quantity still overwrites. */
  lemma {:induction false} MergedKeeps(p: CatalogProduct, e: ExtractedProduct)
    ensures var q := Merged(p, e);
      q.id == p.id && q.barcode == p.barcode && q.category == p.category && q.supplier == p.supplier
      && q.minStockLevel == p.minStockLevel && q.expiryDate == p.expiryDate
      && q.halalCertified == p.halalCertified && q.halalCertificationBody == p.halalCertificationBody
      && q.supermarket == p.supermarket && q.createdBy == p.createdBy
      && (e.name == "" ==> q.name == p.name)
      && (!DecTruthy(e.sellingPrice) ==> q.sellingPrice == p.sellingPrice)
      && (e.quantity == Some(0) ==> q.quantity == 0)
      && (e.quantity.None? ==> q.quantity == p.quantity)
  {
  }

  /** Importing the same extracted product twice updates nothing more. */
  lemma {:induction false} MergedIdempotent(p: CatalogProduct, e: ExtractedProduct)
    ensures Merged(Merged(p, e), e) == Merged(p, e)
  {
  }

  // ---------------------------------------------------------------------
  // Creation

  /** get_or_create_category / get_or_create_supplier: nothing for a falsy
   *  name, otherwise the stripped name. */
  function LinkedName(name: Option<string>): (r: Option<string>)
    ensures r.Some? <==> TextTruthy(name)
  {
    if TextTruthy(name) then Some(Strip(name.value)) else None
  }

  /** The barcode of a new product: the extracted one, or AUTO_<id>. */
  function NewBarcode(e: ExtractedProduct): string
  {
    if TextTruthy(e.barcode) then e.barcode.value else "AUTO_" + NatToString(e.id)
  }

  /** create_new_product: every falsy extracted value falls back to its
   *  default. */
  function NewProduct(id: nat, e: ExtractedProduct, supermarket: nat, user: nat, today: int): CatalogProduct
  {
    CatalogProduct(
      id, e.name, NewBarcode(e), LinkedName(e.category), LinkedName(e.supplier),
      e.brand, e.description,
      DecOr(e.costPrice, Zero),
      DecOr(e.sellingPrice, DecOr(e.price, Zero)),
      DecOr(e.price, DecOr(e.sellingPrice, Zero)),
      e.quantity.GetOr(0),
      if e.minStockLevel.Some? && e.minStockLevel.value != 0 then e.minStockLevel.value else 5,
      e.weight, e.origin,
      e.expiryDate.GetOr(today),
      e.location, e.halalCertified, e.halalCertificationBody, supermarket, user)
  }

  /** A zero minimum stock level is falsy and becomes 5; a product with
   *  only a selling price gets it as its current price, and the other way
   *  round; a missing expiry date becomes today. */
  lemma {:induction false} NewProductDefaults(id: nat, e: ExtractedProduct, supermarket: nat, user: nat, today: int)
    ensures var p := NewProduct(id, e, supermarket, user, today);
      (e.minStockLevel == Some(0) ==> p.minStockLevel == 5)
      && (e.minStockLevel.None? ==> p.minStockLevel == 5)
      && (DecTruthy(e.sellingPrice) && !DecTruthy(e.price) ==> p.price == p.sellingPrice == e.sellingPrice.value)
      && (DecTruthy(e.price) && !DecTruthy(e.sellingPrice) ==> p.price == p.sellingPrice == e.price.value)
      && (!DecTruthy(e.price) && !DecTruthy(e.sellingPrice) ==> p.price == p.sellingPrice == Zero)
      && (e.expiryDate.None? ==> p.expiryDate == today)
      && p.barcode != ""
  {
    if !TextTruthy(e.barcode) {
      assert NewBarcode(e) == "AUTO_" + NatToString(e.id);
      assert NewBarcode(e)[0] == 'A';
    }
  }

  // ---------------------------------------------------------------------
  // One product

  /** Product.objects.get(barcode=..., supermarket=...) from position k on:
   *  the first product with that barcode in that supermarket. */
  function FindProductFrom(products: seq<CatalogProduct>, barcode: string, supermarket: nat, k: nat): (r: Option<nat>)
    requires k <= |products|
    ensures r.Some? ==> (k <= r.value < |products|
      && products[r.value].barcode == barcode && products[r.value].supermarket == supermarket)
    ensures r.None? ==> (forall j :: k <= j < |products| ==>
      !(products[j].barcode == barcode && products[j].supermarket == supermarket))
    decreases |products| - k
  {
    if k == |products| then None
    else if products[k].barcode == barcode && products[k].supermarket == supermarket then Some(k)
    else FindProductFrom(products, barcode, supermarket, k + 1)
  }

  function FindProduct(products: seq<CatalogProduct>, barcode: string, supermarket: nat): Option<nat>
  {
    FindProductFrom(products, barcode, supermarket, 0)
  }

  /** Some product anywhere already carries this barcode. */
  predicate BarcodeTaken(products: seq<CatalogProduct>, barcode: string)
  {
    exists k :: 0 <= k < |products| && products[k].barcode == barcode
  }

  datatype Outcome = Imported | Updated | Errored

  /** The product table as the importer sees it. */
  datatype Table = Table(products: seq<CatalogProduct>, nextId: nat)

  /** import_single_product: a truthy barcode found in the supermarket
   *  updates that product; otherwise a new product is created, which the
   *  unique barcode column refuses (the row counts as an error) when some
   *  product of any supermarket already has the barcode. */
  function ImportOne(t: Table, e: ExtractedProduct, supermarket: nat, user: nat, today: int): (Table, Outcome)
  {
    var found := if TextTruthy(e.barcode) then FindProduct(t.products, e.barcode.value, supermarket) else None;
    if found.Some? then
      (t.(products := t.products[found.value := Merged(t.products[found.value], e)]), Updated)
    else if BarcodeTaken(t.products, NewBarcode(e)) then (t, Errored)
    else (Table(t.products + [NewProduct(t.nextId, e, supermarket, user, today)], t.nextId + 1), Imported)
  }

  /** An import step keeps barcodes unique, and adds a product exactly
   *  when it reports Imported. */
  lemma {:induction false} ImportOneKeepsUnique(t: Table, e: ExtractedProduct, supermarket: nat, user: nat, today: int)
    requires BarcodesUnique(t.products)
    ensures var (t', o) := ImportOne(t, e, supermarket, user, today);
      BarcodesUnique(t'.products)
      && |t'.products| == |t.products| + (if o == Imported then 1 else 0)
      && (o == Errored ==> t' == t)
  {
    var (t', o) := ImportOne(t, e, supermarket, user, today);
    if o == Updated {
      var i := FindProduct(t.products, e.barcode.value, supermarket).value;
      MergedKeeps(t.products[i], e);
      assert forall k :: 0 <= k < |t.products| ==> t'.products[k].barcode == t.products[k].barcode;
    } else if o == Imported {
      assert forall k :: 0 <= k < |t.products| ==> t'.products[k] == t.products[k];
    }
  }

  /** A product already in the supermarket under the barcode is updated in
   *  place, never duplicated. */
  lemma {:induction false} ExistingBarcodeUpdates(t: Table, e: ExtractedProduct, supermarket: nat, user: nat, today: int, i: nat)
    requires BarcodesUnique(t.products) && TextTruthy(e.barcode)
    requires i < |t.products| && t.products[i].barcode == e.barcode.value && t.products[i].supermarket == supermarket
    ensures ImportOne(t, e, supermarket, user, today)
      == (t.(products := t.products[i := Merged(t.products[i], e)]), Updated)
  {
    var found := FindProduct(t.products, e.barcode.value, supermarket);
    assert found.Some?;
    assert found.value == i;
  }

  /** The barcode exists, but in another supermarket: the lookup misses,
   *  the create hits the unique column, and the row fails. */
  lemma {:induction false} ForeignBarcodeFails(t: Table, e: ExtractedProduct, supermarket: nat, user: nat, today: int, i: nat)
    requires BarcodesUnique(t.products) && TextTruthy(e.barcode)
    requires i < |t.products| && t.products[i].barcode == e.barcode.value && t.products[i].supermarket != supermarket
    ensures ImportOne(t, e, supermarket, user, today) == (t, Errored)
  {
    assert FindProduct(t.products, e.barcode.value, supermarket).None?;
    assert BarcodeTaken(t.products, NewBarcode(e));
  }

  // ---------------------------------------------------------------------
  // The run over a session

  /** Everything an import run changes: the product table, the session's
   *  extracted products (their processed flags) and the counters. */
  datatype RunState = RunState(table: Table, extracted: seq<ExtractedProduct>, results: ImportResults)

  /** One eligible extracted product: a success counts as imported or
   *  updated and marks the product processed; a failure counts as an
   *  error and leaves it unprocessed. */
  function ImportStep(st: RunState, k: nat, supermarket: nat, user: nat, today: int): (r: RunState)
    requires k < |st.extracted|
    ensures |r.extracted| == |st.extracted|
  {
    var e := st.extracted[k];
    var (t', o) := ImportOne(st.table, e, supermarket, user, today);
    RunState(t', if o.Errored? then st.extracted else st.extracted[k := e.(isProcessed := true)], Counted(st.results, o))
  }

  /** The counters with one more outcome counted. */
  function Counted(res: ImportResults, o: Outcome): (r: ImportResults)
    ensures r.imported + r.updated + r.errors == res.imported + res.updated + res.errors + 1
    ensures r.skipped == res.skipped
  {
    match o
    case Imported => res.(imported := res.imported + 1)
    case Updated => res.(updated := res.updated + 1)
    case Errored => res.(errors := res.errors + 1)
  }

  /** The run over the given positions, in order. */
  function ImportRun(st: RunState, todo: seq<nat>, supermarket: nat, user: nat, today: int): (r: RunState)
    requires forall m :: 0 <= m < |todo| ==> todo[m] < |st.extracted|
    ensures |r.extracted| == |st.extracted|
    decreases |todo|
  {
    if |todo| == 0 then st
    else ImportRun(ImportStep(st, todo[0], supermarket, user, today), todo[1..], supermarket, user, today)
  }

  /** The number of processed extracted products. */
  function ProcessedCount(extracted: seq<ExtractedProduct>): nat
  {
    if |extracted| == 0 then 0
    else (if extracted[0].isProcessed then 1 else 0) + ProcessedCount(extracted[1..])
  }

  lemma {:induction false} ProcessedCountMark(extracted: seq<ExtractedProduct>, k: nat)
    requires k < |extracted| && !extracted[k].isProcessed
    ensures ProcessedCount(extracted[k := extracted[k].(isProcessed := true)]) == ProcessedCount(extracted) + 1
  {
    var marked := extracted[k := extracted[k].(isProcessed := true)];
    if k > 0 {
      assert marked[1..] == extracted[1..][k - 1 := extracted[1..][k - 1].(isProcessed := true)];
      ProcessedCountMark(extracted[1..], k - 1);
    } else {
      assert marked[1..] == extracted[1..];
    }
  }

  /** Positions still waiting to be imported, each unprocessed. */
  ghost predicate Pending(extracted: seq<ExtractedProduct>, todo: seq<nat>)
  {
    (forall m :: 0 <= m < |todo| ==> todo[m] < |extracted| && !extracted[todo[m]].isProcessed)
    && (forall m, n :: 0 <= m < n < |todo| ==> todo[m] < todo[n])
  }

  /** Over a run of unprocessed positions: every position counts once as
   *  imported, updated or an error, nothing is skipped, the successes are
   *  exactly the newly processed products, each Imported adds one product,
   *  and barcodes stay unique. */
  lemma {:induction false} ImportRunAccounts(st: RunState, todo: seq<nat>, supermarket: nat, user: nat, today: int)
    requires Pending(st.extracted, todo) && BarcodesUnique(st.table.products)
    ensures var r := ImportRun(st, todo, supermarket, user, today);
      r.results.imported + r.results.updated + r.results.errors
        == st.results.imported + st.results.updated + st.results.errors + |todo|
      && r.results.skipped == st.results.skipped
      && ProcessedCount(r.extracted) == ProcessedCount(st.extracted)
        + (r.results.imported - st.results.imported) + (r.results.updated - st.results.updated)
      && |r.table.products| == |st.table.products| + (r.results.imported - st.results.imported)
      && BarcodesUnique(r.table.products)
    decreases |todo|
  {
    if |todo| > 0 {
      var k := todo[0];
      var st' := ImportStep(st, k, supermarket, user, today);
      ImportOneKeepsUnique(st.table, st.extracted[k], supermarket, user, today);
      var (t', o) := ImportOne(st.table, st.extracted[k], supermarket, user, today);
      if o != Errored {
        ProcessedCountMark(st.extracted, k);
      }
      assert forall m :: 0 <= m < |todo| - 1 ==> todo[1..][m] == todo[m + 1];
      assert Pending(st'.extracted, todo[1..]);
      ImportRunAccounts(st', todo[1..], supermarket, user, today);
    }
  }

  /** Products outside the run are left as they were. */
  lemma {:induction false} ImportRunLeavesOthers(st: RunState, todo: seq<nat>, supermarket: nat, user: nat, today: int, j: nat)
    requires forall m :: 0 <= m < |todo| ==> todo[m] < |st.extracted|
    requires j < |st.extracted| && j !in todo
    ensures ImportRun(st, todo, supermarket, user, today).extracted[j] == st.extracted[j]
    decreases |todo|
  {
    if |todo| > 0 {
      var st' := ImportStep(st, todo[0], supermarket, user, today);
      assert j !in todo[1..];
      ImportRunLeavesOthers(st', todo[1..], supermarket, user, today, j);
    }
  }

  /** A whole run over a session from zeroed counters: each eligible
   *  product counts once, as imported, updated or an error; none is
   *  skipped; the successes are exactly the newly processed products; the
   *  table grows by the imported ones and keeps its barcodes unique; and
   *  every product that was not eligible is left as it was. */
  lemma {:induction false} ImportAccounts(t: Table, extracted: seq<ExtractedProduct>, productIds: seq<nat>, supermarket: nat, user: nat, today: int)
    requires BarcodesUnique(t.products)
    ensures var todo := EligibleIndices(extracted, productIds);
      var r := ImportRun(RunState(t, extracted, ImportResults(0, 0, 0, 0)), todo, supermarket, user, today);
      r.results.imported + r.results.updated + r.results.errors == |todo|
      && r.results.skipped == 0
      && ProcessedCount(r.extracted) == ProcessedCount(extracted) + r.results.imported + r.results.updated
      && |r.table.products| == |t.products| + r.results.imported
      && BarcodesUnique(r.table.products)
      && (forall j :: 0 <= j < |extracted| && !Eligible(extracted[j], productIds) ==> r.extracted[j] == extracted[j])
  {
    var todo := EligibleIndices(extracted, productIds);
    var st := RunState(t, extracted, ImportResults(0, 0, 0, 0));
    assert Pending(extracted, todo);
    ImportRunAccounts(st, todo, supermarket, user, today);
    forall j | 0 <= j < |extracted| && !Eligible(extracted[j], productIds)
      ensures ImportRun(st, todo, supermarket, user, today).extracted[j] == extracted[j]
    {
      ImportRunLeavesOthers(st, todo, supermarket, user, today, j);
    }
  }

  // ---------------------------------------------------------------------
  // The imperative importer

  /** The product table. */
  class Catalog {
    var products: seq<CatalogProduct>
    var nextId: nat

    ghost predicate Valid()
      reads this
    {
      BarcodesUnique(products)
    }

    function Snapshot(): Table
      reads this
    {
      Table(products, nextId)
    }

    constructor ()
      ensures Valid() && products == [] && nextId == 0
    {
      products := [];
      nextId := 0;
    }
  }

  /** update_existing_product: the field assignments one by one, then the
   *  save. */
  method UpdateExistingProduct(c: Catalog, i: nat, e: ExtractedProduct)
    requires i < |c.products|
    modifies c`products
    ensures c.products == old(c.products)[i := Merged(old(c.products)[i], e)]
  {
    var p := UpdateText(c.products[i], e);
    p := UpdatePrices(p, e);
    c.products := c.products[i := p];
  }

  method UpdateText(p0: CatalogProduct, e: ExtractedProduct) returns (p: CatalogProduct)
    ensures p == MergedText(p0, e)
  {
    p := p0;
    if e.name != "" {
      p := p.(name := e.name);
    }
    if TextTruthy(e.description) {
      p := p.(description := e.description);
    }
    if TextTruthy(e.brand) {
      p := p.(brand := e.brand);
    }
    if TextTruthy(e.weight) {
      p := p.(weight := e.weight);
    }
    if TextTruthy(e.origin) {
      p := p.(origin := e.origin);
    }
    if TextTruthy(e.location) {
      p := p.(location := e.location);
    }
  }

  method UpdatePrices(p0: CatalogProduct, e: ExtractedProduct) returns (p: CatalogProduct)
    ensures p == MergedPrices(p0, e)
  {
    p := p0;
    if DecTruthy(e.costPrice) {
      p := p.(costPrice := e.costPrice.value);
    }
    if DecTruthy(e.sellingPrice) {
      p := p.(sellingPrice := e.sellingPrice.value);
    }
    if DecTruthy(e.price) {
      p := p.(price := e.price.value);
    }
    if e.quantity.Some? {
      p := p.(quantity := e.quantity.value);
    }
  }

  /** import_single_product on the table. */
  method ImportSingleProduct(c: Catalog, e: ExtractedProduct, supermarket: nat, user: nat, today: int)
    returns (o: Outcome)
    modifies c
    ensures (c.Snapshot(), o) == ImportOne(old(c.Snapshot()), e, supermarket, user, today)
  {
    var found: Option<nat> := None;
    if TextTruthy(e.barcode) {
      found := FindProduct(c.products, e.barcode.value, supermarket);
    }
    if found.Some? {
      UpdateExistingProduct(c, found.value, e);
      return Updated;
    }
    var barcode := NewBarcode(e);
    if BarcodeTaken(c.products, barcode) {
      return Errored;
    }
    c.products := c.products + [NewProduct(c.nextId, e, supermarket, user, today)];
    c.nextId := c.nextId + 1;
    o := Imported;
  }

  /** import_products: every eligible extracted product of the session in
   *  row order, counting the outcomes; a success marks the product
   *  processed. */
  method ImportProducts(s: UploadSession, c: Catalog, productIds: seq<nat>, user: nat, today: int)
    returns (results: ImportResults)
    modifies s`extracted, c
    ensures var todo := EligibleIndices(old(s.extracted), productIds);
      RunState(c.Snapshot(), s.extracted, results)
        == ImportRun(RunState(old(c.Snapshot()), old(s.extracted), ImportResults(0, 0, 0, 0)), todo, s.supermarket, user, today)
  {
    var todo := EligibleIndices(s.extracted, productIds);
    results := ImportResults(0, 0, 0, 0);
    ghost var final := ImportRun(RunState(c.Snapshot(), s.extracted, results), todo, s.supermarket, user, today);
    var m := 0;
    while m < |todo|
      invariant 0 <= m <= |todo| && |s.extracted| == |old(s.extracted)|
      invariant ImportRun(RunState(c.Snapshot(), s.extracted, results), todo[m..], s.supermarket, user, today) == final
    {
      assert todo[m..][0] == todo[m] && todo[m..][1..] == todo[m + 1..];
      results := ImportAt(s, c, todo[m], results, user, today);
      m := m + 1;
    }
  }

  /** The loop body of import_products for the extracted product at k. */
  method ImportAt(s: UploadSession, c: Catalog, k: nat, results: ImportResults, user: nat, today: int)
    returns (res: ImportResults)
    requires k < |s.extracted|
    modifies s`extracted, c
    ensures RunState(c.Snapshot(), s.extracted, res)
         == ImportStep(RunState(old(c.Snapshot()), old(s.extracted), results), k, s.supermarket, user, today)
  {
    var e := s.extracted[k];
    var o := ImportSingleProduct(c, e, s.supermarket, user, today);
    res := Counted(results, o);
    if !o.Errored? {
      s.extracted := s.extracted[k := e.(isProcessed := true)];
    }
  }
}
