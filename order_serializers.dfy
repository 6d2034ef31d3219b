/** OrderSerializer.create and OrderSerializer.update of orders/serializers.py: an
 *  order's lines are written one by one, each saved with its computed line total,
 *  and the order's total is set to the sum of those totals. */
module OrderSerializers {
  import opened Wrappers
  import opened OrderModels
  import opened OrderTables

  /** A validated line: the serializer requires product, quantity and unit price. */
  datatype LineInput = LineInput(product: nat, quantity: nat, unitPrice: int)

  /** The writable order fields of a create request; a missing status is PENDING. */
  datatype OrderFields = OrderFields(supermarket: SupermarketId, customerName: Option<string>,
                                     customerEmail: Option<string>, customerPhone: Option<string>,
                                     status: Option<PlainOrderStatus>, notes: Option<string>)

  /** The fields an update request carries, each absent (None) or set to a value
   *  (which for a nullable field may itself be null). */
  datatype OrderPatch = OrderPatch(supermarket: Option<SupermarketId>, customerName: Option<Option<string>>,
                                   customerEmail: Option<Option<string>>, customerPhone: Option<Option<string>>,
                                   status: Option<PlainOrderStatus>, notes: Option<Option<string>>)

  /** The row OrderItem.objects.create writes: save() sets the total to unit price
   *  times quantity, both being present. */
  function LineOf(order: OrderId, x: LineInput): (r: LineItem)
    ensures r.order == order && r.product == x.product && r.quantity == x.quantity && r.unitPrice == x.unitPrice
    ensures r.totalPrice == x.unitPrice * x.quantity
  {
    LineItem(order, x.product, x.quantity, x.unitPrice, LineTotal(Some(x.quantity), Some(x.unitPrice), 0))
  }

  function LinesOf(order: OrderId, xs: seq<LineInput>): (r: seq<LineItem>)
    ensures |r| == |xs| && forall i :: 0 <= i < |xs| ==> r[i] == LineOf(order, xs[i])
  {
    seq(|xs|, i requires 0 <= i < |xs| => LineOf(order, xs[i]))
  }

  /** The sum of the line totals. */
  function LinesTotal(lines: seq<LineItem>): int
  {
    if |lines| == 0 then 0 else LinesTotal(lines[..|lines| - 1]) + lines[|lines| - 1].totalPrice
  }

  /** The lines of one order, in table order (`order.items.all()`). */
  function LinesOfOrder(lines: seq<LineItem>, order: OrderId): (r: seq<LineItem>)
    ensures forall x :: x in r ==> x in lines && x.order == order
  {
    if |lines| == 0 then []
    else
      var front := LinesOfOrder(lines[..|lines| - 1], order);
      if lines[|lines| - 1].order == order then front + [lines[|lines| - 1]] else front
  }

  /** The table after `instance.items.all().delete()`. */
  function WithoutOrder(lines: seq<LineItem>, order: OrderId): (r: seq<LineItem>)
    ensures forall x :: x in r <==> x in lines && x.order != order
  {
    if |lines| == 0 then []
    else
      var front := WithoutOrder(lines[..|lines| - 1], order);
      assert forall x :: x in lines <==> x in lines[..|lines| - 1] || x == lines[|lines| - 1];
      if lines[|lines| - 1].order != order then front + [lines[|lines| - 1]] else front
  }

  /** Every line belongs to an existing order (the foreign key, deleted in cascade). */
  predicate LinesValid(orders: map<OrderId, PlainOrder>, lines: seq<LineItem>)
  {
    forall i :: 0 <= i < |lines| ==> lines[i].order in orders
  }

  lemma {:induction false} LinesTotalAppend(a: seq<LineItem>, b: seq<LineItem>)
    ensures LinesTotal(a + b) == LinesTotal(a) + LinesTotal(b)
    decreases |b|
  {
    if |b| == 0 {
      assert a + b == a;
    } else {
      LinesTotalAppend(a, b[..|b| - 1]);
      assert (a + b)[..|a + b| - 1] == a + b[..|b| - 1];
    }
  }

  lemma {:induction false} LinesOfOrderAppend(a: seq<LineItem>, b: seq<LineItem>, order: OrderId)
    ensures LinesOfOrder(a + b, order) == LinesOfOrder(a, order) + LinesOfOrder(b, order)
    decreases |b|
  {
    if |b| == 0 {
      assert a + b == a;
    } else {
      LinesOfOrderAppend(a, b[..|b| - 1], order);
      assert (a + b)[..|a + b| - 1] == a + b[..|b| - 1];
    }
  }

  /** A table with no line of the order contributes none. */
  lemma {:induction false} NoLinesOfOrder(lines: seq<LineItem>, order: OrderId)
    requires forall i :: 0 <= i < |lines| ==> lines[i].order != order
    ensures LinesOfOrder(lines, order) == []
  {
    if |lines| > 0 {
      NoLinesOfOrder(lines[..|lines| - 1], order);
    }
  }

  /** Lines written for the order are all the order's. */
  lemma {:induction false} AllLinesOfOrder(order: OrderId, xs: seq<LineInput>)
    ensures LinesOfOrder(LinesOf(order, xs), order) == LinesOf(order, xs)
  {
    if |xs| > 0 {
      AllLinesOfOrder(order, xs[..|xs| - 1]);
      assert LinesOf(order, xs)[..|xs| - 1] == LinesOf(order, xs[..|xs| - 1]);
    }
  }

  /** Lines written for one order are none of another's. */
  lemma {:induction false} NoneOfOtherOrder(order: OrderId, other: OrderId, xs: seq<LineInput>)
    requires order != other
    ensures LinesOfOrder(LinesOf(order, xs), other) == []
  {
    NoLinesOfOrder(LinesOf(order, xs), other);
  }

  /** Deleting one order's lines leaves every other order's lines as they were. */
  lemma {:induction false} WithoutOrderKeepsOthers(lines: seq<LineItem>, order: OrderId, other: OrderId)
    requires order != other
    ensures LinesOfOrder(WithoutOrder(lines, order), other) == LinesOfOrder(lines, other)
  {
    if |lines| > 0 {
      var front := lines[..|lines| - 1];
      var last := lines[|lines| - 1];
      WithoutOrderKeepsOthers(front, order, other);
      if last.order != order {
        LinesOfOrderAppend(WithoutOrder(front, order), [last], other);
      }
    }
  }

  /** After the delete the order has no lines left. */
  lemma {:induction false} WithoutOrderDropsOrder(lines: seq<LineItem>, order: OrderId)
    ensures LinesOfOrder(WithoutOrder(lines, order), order) == []
  {
    if |lines| > 0 {
      var front := lines[..|lines| - 1];
      var last := lines[|lines| - 1];
      WithoutOrderDropsOrder(front, order);
      if last.order != order {
        LinesOfOrderAppend(WithoutOrder(front, order), [last], order);
      }
    }
  }

  /** The loop shared by create and update: one line per entry, in order, and the
   *  running total of their saved totals. */
  method AddLines(db: OrderDatabase, order: OrderId, xs: seq<LineInput>) returns (total: int)
    modifies db`lineItems
    ensures db.lineItems == old(db.lineItems) + LinesOf(order, xs)
    ensures total == LinesTotal(LinesOf(order, xs))
  {
    total := 0;
    var i := 0;
    while i < |xs|
      invariant i <= |xs|
      invariant db.lineItems == old(db.lineItems) + LinesOf(order, xs[..i])
      invariant total == LinesTotal(LinesOf(order, xs[..i]))
    {
      var line := LineOf(order, xs[i]);
      assert LinesOf(order, xs[..i + 1]) == LinesOf(order, xs[..i]) + [line];
      db.lineItems := db.lineItems + [line];
      total := total + line.totalPrice;
      i := i + 1;
    }
    assert xs[..|xs|] == xs;
  }

  /** OrderSerializer.create: the order (given its fresh id) is written, then one line
   *  per entry, and its total is set to the sum of the line totals: 0 for no lines. */
  method CreateOrder(db: OrderDatabase, id: OrderId, f: OrderFields, xs: seq<LineInput>) returns (order: PlainOrder)
    requires LinesValid(db.plainOrders, db.lineItems) && id !in db.plainOrders
    modifies db`plainOrders, db`lineItems
    ensures LinesValid(db.plainOrders, db.lineItems)
    ensures order == PlainOrder(id, f.supermarket, f.customerName, f.customerEmail, f.customerPhone,
                                f.status.GetOr(PPending), LinesTotal(LinesOf(id, xs)), f.notes)
    ensures db.plainOrders == old(db.plainOrders)[id := order]
    ensures db.lineItems == old(db.lineItems) + LinesOf(id, xs)
  {
    order := PlainOrder(id, f.supermarket, f.customerName, f.customerEmail, f.customerPhone,
                        f.status.GetOr(PPending), 0, f.notes);
    db.plainOrders := db.plainOrders[id := order];
    var total := AddLines(db, id, xs);
    order := order.(totalAmount := total);
    db.plainOrders := db.plainOrders[id := order];
  }

  /** After a create the order's total is the sum of its lines in the table, and
   *  no other order's lines changed. */
  lemma {:induction false} CreatedTotalMatchesLines(orders: map<OrderId, PlainOrder>, lines: seq<LineItem>, id: OrderId,
                                 xs: seq<LineInput>, other: OrderId)
    requires LinesValid(orders, lines) && id !in orders && other != id
    ensures LinesTotal(LinesOfOrder(lines + LinesOf(id, xs), id)) == LinesTotal(LinesOf(id, xs))
    ensures LinesOfOrder(lines + LinesOf(id, xs), other) == LinesOfOrder(lines, other)
  {
    var added := LinesOf(id, xs);
    LinesOfOrderAppend(lines, added, id);
    LinesOfOrderAppend(lines, added, other);
    NoLinesOfOrder(lines, id);
    AllLinesOfOrder(id, xs);
    NoneOfOtherOrder(id, other, xs);
    assert LinesOfOrder(lines + added, id) == [] + added;
    assert [] + added == added;
    assert LinesOfOrder(lines, other) + [] == LinesOfOrder(lines, other);
  }

  /** setattr for every field the request carries. */
  function Patch(o: PlainOrder, p: OrderPatch): (r: PlainOrder)
    ensures r.id == o.id && r.totalAmount == o.totalAmount
    ensures r.supermarket == p.supermarket.GetOr(o.supermarket) && r.status == p.status.GetOr(o.status)
    ensures r.customerName == p.customerName.GetOr(o.customerName)
    ensures r.customerEmail == p.customerEmail.GetOr(o.customerEmail)
    ensures r.customerPhone == p.customerPhone.GetOr(o.customerPhone)
    ensures r.notes == p.notes.GetOr(o.notes)
    ensures p == OrderPatch(None, None, None, None, None, None) ==> r == o
  {
    o.(supermarket := p.supermarket.GetOr(o.supermarket),
       customerName := p.customerName.GetOr(o.customerName),
       customerEmail := p.customerEmail.GetOr(o.customerEmail),
       customerPhone := p.customerPhone.GetOr(o.customerPhone),
       status := p.status.GetOr(o.status),
       notes := p.notes.GetOr(o.notes))
  }

  /** OrderSerializer.update: the request's fields are set; without an items list the
   *  lines and the total stay; with one, the order's old lines are deleted, the new
   *  ones written and the total recomputed from them. */
  method UpdateOrder(db: OrderDatabase, id: OrderId, p: OrderPatch, xs: Option<seq<LineInput>>)
    returns (order: PlainOrder)
    requires LinesValid(db.plainOrders, db.lineItems) && id in db.plainOrders
    modifies db`plainOrders, db`lineItems
    ensures LinesValid(db.plainOrders, db.lineItems)
    ensures db.plainOrders == old(db.plainOrders)[id := order]
    ensures xs.None? ==> order == Patch(old(db.plainOrders)[id], p) && db.lineItems == old(db.lineItems)
    ensures xs.Some? ==>
              order == Patch(old(db.plainOrders)[id], p).(totalAmount := LinesTotal(LinesOf(id, xs.value))) &&
              db.lineItems == WithoutOrder(old(db.lineItems), id) + LinesOf(id, xs.value)
  {
    order := Patch(db.plainOrders[id], p);
    if xs.Some? {
      db.lineItems := WithoutOrder(db.lineItems, id);
      var total := AddLines(db, id, xs.value);
      order := order.(totalAmount := total);
    }
    db.plainOrders := db.plainOrders[id := order];
  }

  /** After an update with items the order's total is the sum of its lines in the
   *  table. */
  lemma {:induction false} UpdatedTotalMatchesLines(lines: seq<LineItem>, id: OrderId, xs: seq<LineInput>)
    ensures LinesTotal(LinesOfOrder(WithoutOrder(lines, id) + LinesOf(id, xs), id)) == LinesTotal(LinesOf(id, xs))
  {
    var kept := WithoutOrder(lines, id);
    var added := LinesOf(id, xs);
    LinesOfOrderAppend(kept, added, id);
    WithoutOrderDropsOrder(lines, id);
    AllLinesOfOrder(id, xs);
    assert LinesOfOrder(kept + added, id) == [] + added;
    assert [] + added == added;
  }

  /** An update with items changes no other order's lines. */
  lemma {:induction false} UpdateKeepsOtherLines(lines: seq<LineItem>, id: OrderId, xs: seq<LineInput>, other: OrderId)
    requires other != id
    ensures LinesOfOrder(WithoutOrder(lines, id) + LinesOf(id, xs), other) == LinesOfOrder(lines, other)
  {
    var kept := WithoutOrder(lines, id);
    var added := LinesOf(id, xs);
    LinesOfOrderAppend(kept, added, other);
    WithoutOrderKeepsOthers(lines, id, other);
    NoneOfOtherOrder(id, other, xs);
    assert LinesOfOrder(kept, other) + [] == LinesOfOrder(kept, other);
  }

  /** Each line total is unit price times quantity, so the order total is the sum
   *  of those products. */
  lemma {:induction false} LinesTotalIsSumOfProducts(order: OrderId, xs: seq<LineInput>)
    ensures LinesTotal(LinesOf(order, xs)) == InputTotal(xs)
  {
    if |xs| > 0 {
      LinesTotalIsSumOfProducts(order, xs[..|xs| - 1]);
      assert LinesOf(order, xs)[..|xs| - 1] == LinesOf(order, xs[..|xs| - 1]);
    }
  }

  /** The sum of unit price times quantity over the request's lines. */
  function InputTotal(xs: seq<LineInput>): int
  {
    if |xs| == 0 then 0 else InputTotal(xs[..|xs| - 1]) + xs[|xs| - 1].unitPrice * xs[|xs| - 1].quantity
  }
}
