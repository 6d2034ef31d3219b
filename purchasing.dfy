/** Purchase orders and supplier prices (purchasing/models.py,
 *  purchasing/views.py). Money is held in integer cents, as the two
 *  decimal places of the price fields allow. */
module Purchasing {
  import opened Wrappers
  import opened Seqs
  import opened Texts

  datatype PoStatus = Draft | Sent | Received | Cancelled

  /** A new purchase order starts as a draft. */
  const DefaultStatus := Draft

  function StatusName(s: PoStatus): string
  {
    match s
    case Draft => "DRAFT"
    case Sent => "SENT"
    case Received => "RECEIVED"
    case Cancelled => "CANCELLED"
  }

  datatype PurchaseOrderItem = PurchaseOrderItem(product: nat, quantity: int, unitPrice: int)

  function LineTotal(item: PurchaseOrderItem): int
  {
    item.quantity * item.unitPrice
  }

  /** PurchaseOrder.total_amount: the sum of quantity times unit price over
   *  the order's items, 0 for an order without items. */
  function TotalAmount(items: seq<PurchaseOrderItem>): (r: int)
    ensures |items| == 0 ==> r == 0
    ensures |items| == 1 ==> r == items[0].quantity * items[0].unitPrice
  {
    if |items| == 0 then 0 else LineTotal(items[0]) + TotalAmount(items[1..])
  }

  /** Adding items adds their totals. */
  lemma {:induction false} TotalAmountAppend(a: seq<PurchaseOrderItem>, b: seq<PurchaseOrderItem>)
    ensures TotalAmount(a + b) == TotalAmount(a) + TotalAmount(b)
  {
    if |a| == 0 {
      assert a + b == b;
    } else {
      assert (a + b)[0] == a[0];
      assert (a + b)[1..] == a[1..] + b;
      TotalAmountAppend(a[1..], b);
    }
  }

  /** Items with non-negative quantities and prices never give a negative
   *  total. */
  lemma {:induction false} TotalAmountNonNegative(items: seq<PurchaseOrderItem>)
    requires forall k :: 0 <= k < |items| ==> items[k].quantity >= 0 && items[k].unitPrice >= 0
    ensures TotalAmount(items) >= 0
  {
    if |items| > 0 {
      TotalAmountNonNegative(items[1..]);
    }
  }

  /** The number __str__ shows for an order as written: the condition
   *  binds looser than `or`, so an order without an id shows "PO" even when
   *  it has a po_number. */
  function OrderNumberAsWritten(id: Option<nat>, poNumber: Option<string>): (r: string)
    ensures (id.None? || id.value == 0) ==> r == "PO"
  {
    if id.Some? && id.value != 0 then
      (if poNumber.Some? && poNumber.value != "" then poNumber.value else "PO#" + NatToString(id.value))
    else "PO"
  }

  /** The order number as evidently intended: the po_number when set,
   *  else "PO#<id>" for a saved order, else "PO". */
  function OrderNumber(id: Option<nat>, poNumber: Option<string>): (r: string)
    ensures poNumber.Some? && poNumber.value != "" ==> r == poNumber.value
    ensures (poNumber.None? || poNumber.value == "") && id.Some? && id.value != 0 ==> r == "PO#" + NatToString(id.value)
    ensures (poNumber.None? || poNumber.value == "") && (id.None? || id.value == 0) ==> r == "PO"
  {
    if poNumber.Some? && poNumber.value != "" then poNumber.value
    else if id.Some? && id.value != 0 then "PO#" + NatToString(id.value)
    else "PO"
  }

  /** The two agree on every saved order and differ on an unsaved one that
   *  already carries its number. */
  lemma {:induction false} OrderNumberDiffers(id: Option<nat>, poNumber: Option<string>)
    ensures id.Some? && id.value != 0 ==> OrderNumberAsWritten(id, poNumber) == OrderNumber(id, poNumber)
    ensures OrderNumberAsWritten(None, Some("PO-2025-01")) == "PO"
    ensures OrderNumber(None, Some("PO-2025-01")) == "PO-2025-01"
  {
  }

  /** PurchaseOrder.__str__ as intended: the order number (OrderNumber, which the
   *  code as written gets wrong for an unsaved order), the supplier name and the
   *  status name, joined by " - ". */
  function OrderLabel(id: Option<nat>, poNumber: Option<string>, supplierName: string, status: PoStatus): (r: string)
    ensures IsPrefix(OrderNumber(id, poNumber) + " - " + supplierName + " - ", r)
    ensures |r| == |OrderNumber(id, poNumber)| + |supplierName| + 6 + |StatusName(status)|
    ensures r[|r| - |StatusName(status)|..] == StatusName(status)
  {
    OrderNumber(id, poNumber) + " - " + supplierName + " - " + StatusName(status)
  }

  /** The status names differ from one another, so two labels of the same order and
   *  supplier are equal exactly when the statuses are. */
  lemma {:induction false} OrderLabelShowsStatus(id: Option<nat>, poNumber: Option<string>, supplierName: string,
                                                 s1: PoStatus, s2: PoStatus)
    ensures OrderLabel(id, poNumber, supplierName, s1) == OrderLabel(id, poNumber, supplierName, s2) <==> s1 == s2
  {
  }

  // ---------------------------------------------------------------------
  // Receiving and statistics

  class PurchaseOrder {
    var status: PoStatus

    /** A new order, in the default status. */
    constructor ()
      ensures status == DefaultStatus
    {
      status := DefaultStatus;
    }

    /** PurchaseOrderViewSet.receive: an order already received is refused
     *  (400) and left alone; any other, a cancelled one included, becomes
     *  received. */
    method Receive() returns (ok: bool)
      modifies this`status
      ensures ok <==> old(status) != Received
      ensures status == Received
    {
      if status == Received {
        return false;
      }
      status := Received;
      return true;
    }
  }

  /** Receiving an order twice: the second request is always refused. */
  method ReceiveTwice(po: PurchaseOrder) returns (first: bool, second: bool)
    modifies po
    ensures !second && po.status == Received
    ensures first <==> old(po.status) != Received
  {
    first := po.Receive();
    second := po.Receive();
  }

  function CountStatus(orders: seq<PoStatus>, wanted: set<PoStatus>): (r: nat)
    ensures r <= |orders|
  {
    if |orders| == 0 then 0
    else (if orders[0] in wanted then 1 else 0) + CountStatus(orders[1..], wanted)
  }

  datatype OrderStats = OrderStats(total: nat, received: nat, draft: nat, sent: nat)

  /** PurchaseOrderViewSet.stats: the number of orders and of received,
   *  draft and sent ones; cancelled orders have no counter of their own. */
  function Stats(orders: seq<PoStatus>): (r: OrderStats)
    ensures r.total == |orders|
    ensures r.received == CountStatus(orders, {Received})
    ensures r.draft == CountStatus(orders, {Draft})
    ensures r.sent == CountStatus(orders, {Sent})
  {
    OrderStats(|orders|, CountStatus(orders, {Received}), CountStatus(orders, {Draft}), CountStatus(orders, {Sent}))
  }

  lemma {:induction false} CountStatusSplit(orders: seq<PoStatus>, a: set<PoStatus>, b: set<PoStatus>)
    requires a !! b
    ensures CountStatus(orders, a) + CountStatus(orders, b) == CountStatus(orders, a + b)
  {
    if |orders| > 0 {
      CountStatusSplit(orders[1..], a, b);
    }
  }

  lemma {:induction false} CountStatusAll(orders: seq<PoStatus>)
    ensures CountStatus(orders, {Draft, Sent, Received, Cancelled}) == |orders|
  {
    if |orders| > 0 {
      assert orders[0].Draft? || orders[0].Sent? || orders[0].Received? || orders[0].Cancelled?;
      CountStatusAll(orders[1..]);
    }
  }

  /** The counters leave exactly the cancelled orders unaccounted for. */
  lemma {:induction false} StatsAccount(orders: seq<PoStatus>)
    ensures var st := Stats(orders);
      st.received + st.draft + st.sent + CountStatus(orders, {Cancelled}) == st.total
  {
    CountStatusSplit(orders, {Received}, {Draft});
    CountStatusSplit(orders, {Received, Draft}, {Sent});
    CountStatusSplit(orders, {Received, Draft, Sent}, {Cancelled});
    assert {Received} + {Draft} == {Received, Draft};
    assert {Received, Draft} + {Sent} == {Received, Draft, Sent};
    assert {Received, Draft, Sent} + {Cancelled} == {Draft, Sent, Received, Cancelled};
    CountStatusAll(orders);
  }

  // ---------------------------------------------------------------------
  // Cheapest supplier

  /** A supplier's price for a product; the pair (supplier, product) is
   *  unique in the table. */
  datatype SupplierProduct = SupplierProduct(supplier: nat, product: nat, supplierPrice: int, isActive: bool)

  predicate PairsUnique(table: seq<SupplierProduct>)
  {
    forall i, j :: 0 <= i < j < |table| ==>
      (table[i].supplier, table[i].product) != (table[j].supplier, table[j].product)
  }

  /** Text Python's int() accepts after stripping: digits, with single
   *  underscores allowed between two digits. */
  predicate DigitGroups(s: string)
  {
    |s| > 0 && IsDigit(s[0]) && IsDigit(s[|s| - 1])
    && (forall i :: 0 <= i < |s| ==> IsDigit(s[i]) || s[i] == '_')
    && (forall i, j :: 0 <= i < |s| && 0 <= j < |s| && j == i + 1 ==> !(s[i] == '_' && s[j] == '_'))
  }

  function DropUnderscores(s: string): (r: string)
    requires forall i :: 0 <= i < |s| ==> IsDigit(s[i]) || s[i] == '_'
    ensures AllDigits(r) && |r| <= |s|
    ensures AllDigits(s) ==> r == s
  {
    if |s| == 0 then []
    else (if s[0] == '_' then [] else [s[0]]) + DropUnderscores(s[1..])
  }

  /** int() of text already stripped of whitespace. */
  function ParseSigned(t: string): Option<int>
  {
    if |t| > 0 && (t[0] == '-' || t[0] == '+') && DigitGroups(t[1..]) then
      var n: int := DigitsValue(DropUnderscores(t[1..]));
      Some(if t[0] == '-' then -n else n)
    else if DigitGroups(t) then Some(DigitsValue(DropUnderscores(t)))
    else None
  }

  /** int(text): an optional sign and digit groups, surrounded by
   *  whitespace; None where Python raises ValueError. */
  function ParseInt(text: string): Option<int>
  {
    ParseSigned(Strip(text))
  }

  /** The qty query parameter: absent or empty means 1 (the source parses
   *  the text "1"), and so does text int() refuses. */
  function ParseQty(qty: Option<string>): (r: int)
    ensures qty.None? || qty == Some("") ==> r == 1
    ensures qty.Some? && ParseInt(qty.value).None? ==> r == 1
    ensures qty.Some? && qty.value != "" && ParseInt(qty.value).Some? ==> r == ParseInt(qty.value).value
  {
    if qty.None? || qty.value == "" then 1
    else
      match ParseInt(qty.value)
      case Some(n) => n
      case None => 1
  }

  /** int() of the decimal text of a natural number reads it back. */
  lemma {:induction false} ParseNatText(n: nat)
    ensures ParseInt(NatToString(n)) == Some(n)
  {
    var s := NatToString(n);
    StripTrimmed(s);
    assert IsDigit(s[0]);
    assert DigitGroups(s);
    NatToStringRoundTrip(n);
    assert ParseSigned(s) == Some(n);
  }

  /** int() of "-" followed by the text of a positive number. */
  lemma {:induction false} ParseNegText(n: nat)
    requires n > 0
    ensures ParseInt("-" + NatToString(n)) == Some(-(n as int))
  {
    var d := NatToString(n);
    var s := "-" + d;
    StripTrimmed(s);
    assert s[1..] == d;
    assert DigitGroups(d);
    NatToStringRoundTrip(n);
    assert ParseSigned(s) == Some(-(n as int));
  }

  /** Reading back the text of a quantity gives that quantity. */
  lemma {:induction false} QtyRoundTrip(n: int)
    ensures ParseQty(Some(IntToString(n))) == n
  {
    if n < 0 {
      QtyNeg(n);
    } else {
      QtyNat(n);
    }
  }

  lemma {:induction false} QtyNat(n: nat)
    ensures ParseQty(Some(IntToString(n))) == n
  {
    ParseNatText(n);
    QtyOfText(NatToString(n), n);
  }

  lemma {:induction false} QtyNeg(n: int)
    requires n < 0
    ensures ParseQty(Some(IntToString(n))) == n
  {
    var m: nat := -n;
    var t := IntToString(n);
    assert ParseInt(t) == Some(n) by {
      assert t == "-" + NatToString(m);
      ParseNegText(m);
    }
    QtyOfText(t, n);
  }

  lemma {:induction false} QtyOfText(s: string, n: int)
    requires ParseInt(s) == Some(n)
    ensures ParseQty(Some(s)) == n
  {
  }

  /** Active offers for the product, in table order. */
  function Offers(table: seq<SupplierProduct>, product: Option<nat>): (r: seq<SupplierProduct>)
    ensures forall x :: x in r <==> x in table && x.isActive && product == Some(x.product)
  {
    Filter(table, (sp: SupplierProduct) => sp.isActive && product == Some(sp.product))
  }

  /** The first offer of least price. */
  function Cheapest(offers: seq<SupplierProduct>): (r: SupplierProduct)
    requires |offers| > 0
    ensures r in offers
    ensures forall x :: x in offers ==> r.supplierPrice <= x.supplierPrice
  {
    if |offers| == 1 then offers[0]
    else
      var rest := Cheapest(offers[1..]);
      if rest.supplierPrice < offers[0].supplierPrice then rest else offers[0]
  }

  datatype Recommendation =
    | NoSuppliers
    | Best(offer: SupplierProduct, recommendedQuantity: int, estimatedTotalCost: int)

  /** BestSupplierView.get: the cheapest active offer for the product with
   *  the cost of the requested quantity; 404 (NoSuppliers) when there is
   *  none. A request without a product matches no offer. */
  function BestSupplier(table: seq<SupplierProduct>, product: Option<nat>, qty: Option<string>): (r: Recommendation)
    ensures r.NoSuppliers? <==>
      forall x :: x in table ==> !(x.isActive && product == Some(x.product))
    ensures r.Best? ==>
      r.offer in table && r.offer.isActive && product == Some(r.offer.product)
      && (forall x :: x in table && x.isActive && product == Some(x.product) ==> r.offer.supplierPrice <= x.supplierPrice)
      && r.recommendedQuantity == ParseQty(qty)
      && r.estimatedTotalCost == r.offer.supplierPrice * r.recommendedQuantity
  {
    var offers := Offers(table, product);
    if |offers| == 0 then NoSuppliers
    else
      var best := Cheapest(offers);
      var q := ParseQty(qty);
      Best(best, q, best.supplierPrice * q)
  }

  /** With unique pairs, the recommended supplier has no cheaper offer for
   *  the product anywhere in the table. */
  lemma {:induction false} BestIsCheapestSupplier(table: seq<SupplierProduct>, product: nat, qty: Option<string>, i: nat)
    requires PairsUnique(table)
    requires i < |table| && table[i].isActive && table[i].product == product
    ensures BestSupplier(table, Some(product), qty).Best?
    ensures BestSupplier(table, Some(product), qty).offer.supplierPrice <= table[i].supplierPrice
  {
    assert table[i] in table;
  }
}
