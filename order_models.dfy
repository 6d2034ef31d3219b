/** Warehouses and the plain order tables of the orders app (orders/models.py). */
module OrderModels {
  import opened Wrappers

  type WarehouseId = nat
  type SupermarketId = nat

  datatype Warehouse = Warehouse(id: WarehouseId, supermarket: SupermarketId, code: string, isDefault: bool, isActive: bool)

  /** Warehouse ids are unique and so is each supermarket's warehouse code. */
  predicate WarehousesWellFormed(rows: seq<Warehouse>)
  {
    forall i, j :: 0 <= i < j < |rows| ==>
      rows[i].id != rows[j].id &&
      (rows[i].supermarket != rows[j].supermarket || rows[i].code != rows[j].code)
  }

  /** No supermarket has two default warehouses. */
  predicate AtMostOneDefault(rows: seq<Warehouse>)
  {
    forall i, j :: 0 <= i < j < |rows| && rows[i].isDefault && rows[j].isDefault ==>
      rows[i].supermarket != rows[j].supermarket
  }

  /** Position of the first default warehouse of a supermarket, in table order. */
  function FirstDefaultIndex(rows: seq<Warehouse>, sm: SupermarketId): (r: Option<nat>)
    ensures r.None? ==> forall i :: 0 <= i < |rows| ==> !(rows[i].supermarket == sm && rows[i].isDefault)
    ensures r.Some? ==> r.value < |rows| && rows[r.value].supermarket == sm && rows[r.value].isDefault
    ensures r.Some? ==> forall i :: 0 <= i < r.value ==> !(rows[i].supermarket == sm && rows[i].isDefault)
  {
    if |rows| == 0 then None
    else if rows[0].supermarket == sm && rows[0].isDefault then Some(0)
    else
      var r := FirstDefaultIndex(rows[1..], sm);
      assert forall i :: 1 <= i < |rows| ==> rows[i] == rows[1..][i - 1];
      if r.Some? then Some(r.value + 1) else None
  }

  /** The default warehouse of a supermarket (the first one, were there several). */
  function DefaultWarehouse(rows: seq<Warehouse>, sm: SupermarketId): (r: Option<WarehouseId>)
    ensures r.None? <==> forall i :: 0 <= i < |rows| ==> !(rows[i].supermarket == sm && rows[i].isDefault)
    ensures r.Some? ==> exists i :: 0 <= i < |rows| && rows[i].id == r.value && rows[i].supermarket == sm && rows[i].isDefault
  {
    var k := FirstDefaultIndex(rows, sm);
    if k.Some? then Some(rows[k.value].id) else None
  }

  /** With a single default per supermarket, the lookup finds exactly that warehouse,
   *  whatever the order of the rows. */
  lemma {:induction false} DefaultWarehouseIsTheDefault(rows: seq<Warehouse>, k: nat)
    requires AtMostOneDefault(rows)
    requires k < |rows| && rows[k].isDefault
    ensures DefaultWarehouse(rows, rows[k].supermarket) == Some(rows[k].id)
  {
    var f := FirstDefaultIndex(rows, rows[k].supermarket);
    assert f.Some?;
    if f.value < k {
      assert false;
    } else if f.value > k {
      assert false;
    }
  }

  /** The rows after Warehouse.save: when `w` is a default, every other warehouse of
   *  its supermarket first loses the flag; then `w` replaces the row with its id, or
   *  is put at the front as the newest row. `ok` is false when the write is refused
   *  because another warehouse of the supermarket has the same code; the flags
   *  cleared before the write stay cleared. */
  datatype WarehouseSave = WarehouseSave(rows: seq<Warehouse>, ok: bool)

  function ClearOtherDefaults(rows: seq<Warehouse>, w: Warehouse): (r: seq<Warehouse>)
    ensures |r| == |rows|
    ensures forall i :: 0 <= i < |rows| ==>
      r[i] == if rows[i].supermarket == w.supermarket && rows[i].isDefault && rows[i].id != w.id
              then rows[i].(isDefault := false) else rows[i]
  {
    seq(|rows|, i requires 0 <= i < |rows| =>
      if rows[i].supermarket == w.supermarket && rows[i].isDefault && rows[i].id != w.id
      then rows[i].(isDefault := false) else rows[i])
  }

  predicate CodeTaken(rows: seq<Warehouse>, w: Warehouse)
  {
    exists i :: 0 <= i < |rows| && rows[i].id != w.id && rows[i].supermarket == w.supermarket && rows[i].code == w.code
  }

  function Upsert(rows: seq<Warehouse>, w: Warehouse): seq<Warehouse>
  {
    if exists i :: 0 <= i < |rows| && rows[i].id == w.id then
      seq(|rows|, i requires 0 <= i < |rows| => if rows[i].id == w.id then w else rows[i])
    else [w] + rows
  }

  function SaveWarehouse(rows: seq<Warehouse>, w: Warehouse): WarehouseSave
  {
    var cleared := if w.isDefault then ClearOtherDefaults(rows, w) else rows;
    if CodeTaken(cleared, w) then WarehouseSave(cleared, false)
    else WarehouseSave(Upsert(cleared, w), true)
  }

  /** Saving any warehouse keeps at most one default per supermarket. */
  lemma {:induction false} SaveKeepsSingleDefault(rows: seq<Warehouse>, w: Warehouse)
    requires WarehousesWellFormed(rows) && AtMostOneDefault(rows)
    ensures AtMostOneDefault(SaveWarehouse(rows, w).rows)
  {
    var cleared := if w.isDefault then ClearOtherDefaults(rows, w) else rows;
    assert AtMostOneDefault(cleared);
    assert WarehousesWellFormed(cleared);
    assert w.isDefault ==> forall k :: 0 <= k < |cleared| && cleared[k].id != w.id && cleared[k].isDefault ==>
      cleared[k].supermarket != w.supermarket;
    if !CodeTaken(cleared, w) {
      var r := Upsert(cleared, w);
      if exists i :: 0 <= i < |cleared| && cleared[i].id == w.id {
        forall i, j | 0 <= i < j < |r| && r[i].isDefault && r[j].isDefault
          ensures r[i].supermarket != r[j].supermarket
        {
          assert r[i] == (if cleared[i].id == w.id then w else cleared[i]);
          assert r[j] == (if cleared[j].id == w.id then w else cleared[j]);
        }
      } else {
        forall i, j | 0 <= i < j < |r| && r[i].isDefault && r[j].isDefault
          ensures r[i].supermarket != r[j].supermarket
        {
          if i == 0 {
            assert r[j] == cleared[j - 1];
          } else {
            assert r[i] == cleared[i - 1] && r[j] == cleared[j - 1];
          }
        }
      }
    }
  }

  /** Saving keeps warehouse ids and (supermarket, code) pairs unique: the write is
   *  refused exactly when it would duplicate a pair. */
  lemma {:induction false} SaveKeepsWellFormed(rows: seq<Warehouse>, w: Warehouse)
    requires WarehousesWellFormed(rows)
    ensures WarehousesWellFormed(SaveWarehouse(rows, w).rows)
  {
    var cleared := if w.isDefault then ClearOtherDefaults(rows, w) else rows;
    assert WarehousesWellFormed(cleared);
    if !CodeTaken(cleared, w) {
      var r := Upsert(cleared, w);
      if exists i :: 0 <= i < |cleared| && cleared[i].id == w.id {
        forall i, j | 0 <= i < j < |r|
          ensures r[i].id != r[j].id && (r[i].supermarket != r[j].supermarket || r[i].code != r[j].code)
        {
          assert r[i] == (if cleared[i].id == w.id then w else cleared[i]);
          assert r[j] == (if cleared[j].id == w.id then w else cleared[j]);
        }
      } else {
        forall i, j | 0 <= i < j < |r|
          ensures r[i].id != r[j].id && (r[i].supermarket != r[j].supermarket || r[i].code != r[j].code)
        {
          if i == 0 {
            assert r[j] == cleared[j - 1];
          } else {
            assert r[i] == cleared[i - 1] && r[j] == cleared[j - 1];
          }
        }
      }
    }
  }

  /** A successfully saved default warehouse is the one the lookup finds. */
  lemma {:induction false} SavedDefaultIsFound(rows: seq<Warehouse>, w: Warehouse)
    requires WarehousesWellFormed(rows) && AtMostOneDefault(rows)
    requires w.isDefault && SaveWarehouse(rows, w).ok
    ensures DefaultWarehouse(SaveWarehouse(rows, w).rows, w.supermarket) == Some(w.id)
  {
    SaveKeepsSingleDefault(rows, w);
    var r := SaveWarehouse(rows, w).rows;
    var cleared := ClearOtherDefaults(rows, w);
    if exists i :: 0 <= i < |cleared| && cleared[i].id == w.id {
      var k :| 0 <= k < |cleared| && cleared[k].id == w.id;
      assert r[k] == w;
      DefaultWarehouseIsTheDefault(r, k);
    } else {
      assert r[0] == w;
      DefaultWarehouseIsTheDefault(r, 0);
    }
  }

  /** Saving a warehouse that is not a default leaves every other row as it was and
   *  in its order: the rows either keep their places, or all move down one behind
   *  the newly inserted `w` at the front. */
  lemma {:induction false} SaveNonDefaultTouchesNoOther(rows: seq<Warehouse>, w: Warehouse)
    requires !w.isDefault
    ensures var r := SaveWarehouse(rows, w).rows;
            (|r| == |rows| || (|r| == |rows| + 1 && r[0] == w)) &&
            forall i :: 0 <= i < |rows| && rows[i].id != w.id ==> r[i + |r| - |rows|] == rows[i]
  {
    var r := SaveWarehouse(rows, w).rows;
    if !CodeTaken(rows, w) && !exists k :: 0 <= k < |rows| && rows[k].id == w.id {
      assert r == [w] + rows;
      assert forall i :: 0 <= i < |rows| ==> r[i + 1] == rows[i];
    }
  }

  type OrderId = nat

  /** A line of a plain order; the serializer requires quantity and unit price. */
  datatype LineItem = LineItem(order: OrderId, product: nat, quantity: nat, unitPrice: int, totalPrice: int)

  /** OrderItem.save: the line total is recomputed whenever quantity and unit price
   *  are both present; otherwise the stored total stays. */
  function LineTotal(quantity: Option<nat>, unitPrice: Option<int>, stored: int): (r: int)
    ensures quantity.Some? && unitPrice.Some? ==> r == unitPrice.value * quantity.value
    ensures quantity.None? || unitPrice.None? ==> r == stored
  {
    if quantity.Some? && unitPrice.Some? then unitPrice.value * quantity.value else stored
  }

  datatype PlainOrderStatus = PPending | PConfirmed | PProcessing | PShipped | PDelivered | PReturned | PCancelled

  datatype PlainOrder = PlainOrder(
    id: OrderId,
    supermarket: SupermarketId,
    customerName: Option<string>,
    customerEmail: Option<string>,
    customerPhone: Option<string>,
    status: PlainOrderStatus,
    totalAmount: int,
    notes: Option<string>)
}
