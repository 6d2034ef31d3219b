/** Upload sessions and the products their rows produce
 *  (file_processing/models.py), the spreadsheet pass of
 *  ExcelProcessor.process_file/process_row (file_processing/services.py), and
 *  the cancel, retry, stats and import-start views (file_processing/views.py). */
module UploadSessions {
  import opened Wrappers
  import opened FileRows
  import Seqs

  datatype SessionStatus = Uploading | Processing | Completed | Error | Cancelled
  datatype UploadType = Excel | Image | Csv

  /** One extracted product row as stored. */
  datatype ExtractedProduct = ExtractedProduct(
    id: nat,
    rowNumber: int,
    name: string,
    barcode: Option<string>,
    category: Option<string>,
    supplier: Option<string>,
    brand: Option<string>,
    description: Option<string>,
    costPrice: Option<Dec>,
    sellingPrice: Option<Dec>,
    price: Option<Dec>,
    quantity: Option<int>,
    minStockLevel: Option<int>,
    weight: Option<string>,
    origin: Option<string>,
    expiryDate: Option<int>,
    location: Option<string>,
    halalCertified: bool,
    halalCertificationBody: Option<string>,
    isProcessed: bool,
    isValid: bool,
    validationErrors: seq<string>)

  function TextOf(data: ProductData, f: Field): Option<string>
  {
    match Get(data, f)
    case Some(VText(s)) => Some(s)
    case _ => None
  }

  function DecOf(data: ProductData, f: Field): Option<Dec>
  {
    match Get(data, f)
    case Some(VDec(d)) => Some(d)
    case _ => None
  }

  function IntOf(data: ProductData, f: Field): Option<int>
  {
    match Get(data, f)
    case Some(VInt(i)) => Some(i)
    case _ => None
  }

  /** ExtractedProduct.objects.create(..., **product_data): fields the data
   *  leaves out take the model defaults ('' for the name, False for halal). */
  function RecordOf(id: nat, rowNumber: int, data: ProductData, errors: seq<string>): (r: ExtractedProduct)
    ensures r.id == id && r.rowNumber == rowNumber
    ensures r.isValid <==> errors == []
    ensures r.validationErrors == errors && !r.isProcessed
  {
    ExtractedProduct(
      id, rowNumber,
      TextOf(data, Name).GetOr(""),
      TextOf(data, Barcode), TextOf(data, Category), TextOf(data, Supplier),
      TextOf(data, Brand), TextOf(data, Description),
      DecOf(data, CostPrice), DecOf(data, SellingPrice), DecOf(data, Price),
      IntOf(data, Quantity), IntOf(data, MinStockLevel),
      TextOf(data, Weight), TextOf(data, Origin),
      (match Get(data, ExpiryDate) case Some(VDate(d)) => Some(d) case _ => None),
      TextOf(data, Location),
      (match Get(data, HalalCertified) case Some(VBool(b)) => b case _ => false),
      None, false, errors == [], errors)
  }

  /** How the importing process is set up: pandas' date parser, whether the
   *  database accepts NaN inside the raw-row JSON, and today's date. */
  datatype ReadEnv = ReadEnv(parseDate: Cell -> Option<int>, acceptsNaN: bool, today: int)

  /** Whether the insert of the row succeeds: name and halal_certified are
   *  NOT NULL columns, and the raw row is stored as JSON, which cannot hold
   *  a timestamp and holds NaN only where the database accepts it. */
  predicate Storable(row: Row, data: ProductData, env: ReadEnv)
  {
    !(Name in data && data[Name].None?)
    && !(HalalCertified in data && data[HalalCertified].None?)
    && Loggable(row, env)
  }

  /** Whether `row.to_dict()` can be stored in a JSON column: the default
   *  encoder refuses a timestamp, and NaN goes in only where the database
   *  accepts it. Both the raw_data of the extracted product and the details
   *  of the row's error log are such columns. */
  predicate Loggable(row: Row, env: ReadEnv)
  {
    (forall i :: 0 <= i < |row| ==> !row[i].cell.Day?)
    && (env.acceptsNaN || forall i :: 0 <= i < |row| ==> !row[i].cell.Missing?)
  }

  /** A row that ends the file pass: process_row raises, and the ERROR log
   *  written in the except clause, which stores the same raw row, raises
   *  too. Nothing catches that inside the loop. */
  predicate Aborts(row: Row, env: ReadEnv)
  {
    RowResult(row, env).None? && !Loggable(row, env)
  }

  /** How many rows of the sheet the pass gets through: all of them, or the
   *  rows before the first one that aborts. */
  function Reached(rows: seq<Row>, env: ReadEnv): (n: nat)
    ensures n <= |rows|
    ensures forall k :: 0 <= k < n ==> !Aborts(rows[k], env)
    ensures n < |rows| ==> Aborts(rows[n], env)
    decreases |rows|
  {
    if |rows| == 0 then 0
    else if Aborts(rows[0], env) then 0
    else 1 + Reached(rows[1..], env)
  }

  /** A row holding a date cell, even in a column no field reads, stops the
   *  pass at that row: the insert of its raw data raises, and so does the
   *  error log of it. */
  lemma {:induction false} DateCellStopsPass(rows: seq<Row>, env: ReadEnv, j: nat)
    requires |rows| > 0 && j < |rows[0]| && rows[0][j].cell.Day?
    ensures Reached(rows, env) == 0
  {
    assert !Loggable(rows[0], env);
    match ProductDataOf(rows[0], env.parseDate)
    case None =>
    case Some(data) => assert !Storable(rows[0], data, env);
  }

  /** process_row: the product data and its validation errors when the
   *  row is stored, None when the row raises. */
  function RowResult(row: Row, env: ReadEnv): Option<(ProductData, seq<string>)>
  {
    match ProductDataOf(row, env.parseDate)
    case None => None
    case Some(data) =>
      if Storable(row, data, env) then Some((data, ValidateProductData(data, env.today))) else None
  }

  /** What process_row makes of one row: None when it raises, otherwise
   *  the product data and its validation errors. */
  type Outcome = Option<(ProductData, seq<string>)>

  /** The record a row outcome stores under the given id: none when the row raised. */
  function RecordsOf(outcome: Outcome, id: nat, rowNumber: int): (r: seq<ExtractedProduct>)
    ensures |r| <= 1
    ensures |r| == 1 <==> outcome.Some?
    ensures forall k :: 0 <= k < |r| ==>
      (r[k].id == id && r[k].rowNumber == rowNumber
       && (r[k].isValid <==> r[k].validationErrors == []) && !r[k].isProcessed)
  {
    match outcome
    case None => []
    case Some(res) => [RecordOf(id, rowNumber, res.0, res.1)]
  }

  /** The outcome of every row of a sheet. */
  function Outcomes(rows: seq<Row>, env: ReadEnv): seq<Outcome>
  {
    seq(|rows|, i requires 0 <= i < |rows| => RowResult(rows[i], env))
  }

  /** The records stored from a run of row outcomes, in row order, with ids
   *  counted up from firstId and rows numbered from firstRow. */
  function StoredFrom(outcomes: seq<Outcome>, firstId: nat, firstRow: int): (r: seq<ExtractedProduct>)
    ensures |r| <= |outcomes|
  {
    if |outcomes| == 0 then []
    else
      var head := RecordsOf(outcomes[0], firstId, firstRow);
      head + StoredFrom(outcomes[1..], firstId + |head|, firstRow + 1)
  }

  /** The records a sheet stores; spreadsheet rows are numbered from 1. */
  function StoredRecords(rows: seq<Row>, env: ReadEnv, firstId: nat): seq<ExtractedProduct>
  {
    StoredFrom(Outcomes(rows, env), firstId, 1)
  }

  /** How many of the records passed validation. */
  function ValidCount(records: seq<ExtractedProduct>): nat
  {
    if |records| == 0 then 0
    else (if records[0].isValid then 1 else 0) + ValidCount(records[1..])
  }

  /** Records with consecutive ids from firstId and rising row numbers in
   *  firstRow..lastRow, each valid exactly when it has no validation errors
   *  and none yet imported. */
  ghost predicate Numbered(r: seq<ExtractedProduct>, firstId: nat, firstRow: int, lastRow: int)
  {
    (forall k :: 0 <= k < |r| ==>
      (r[k].id == firstId + k && firstRow <= r[k].rowNumber <= lastRow
       && (r[k].isValid <==> r[k].validationErrors == []) && !r[k].isProcessed))
    && (forall k, l :: 0 <= k < l < |r| ==> r[k].rowNumber < r[l].rowNumber)
  }

  lemma {:induction false} NumberedPrepend(head: seq<ExtractedProduct>, rest: seq<ExtractedProduct>, firstId: nat, firstRow: int, lastRow: int)
    requires |head| <= 1 && firstRow <= lastRow
    requires forall k :: 0 <= k < |head| ==>
      (head[k].id == firstId && head[k].rowNumber == firstRow
       && (head[k].isValid <==> head[k].validationErrors == []) && !head[k].isProcessed)
    requires Numbered(rest, firstId + |head|, firstRow + 1, lastRow)
    ensures Numbered(head + rest, firstId, firstRow, lastRow)
  {
    var r := head + rest;
    forall k | 0 <= k < |r|
      ensures r[k].id == firstId + k && firstRow <= r[k].rowNumber <= lastRow
    {
      if k < |head| {
        assert k == 0 && r[k] == head[0];
      } else {
        assert r[k] == rest[k - |head|];
      }
    }
    forall k, l | 0 <= k < l < |r|
      ensures r[k].rowNumber < r[l].rowNumber
    {
      assert r[l] == rest[l - |head|];
      if k < |head| {
        assert r[k] == head[0];
      } else {
        assert r[k] == rest[k - |head|];
      }
    }
  }

  /** The stored records carry consecutive ids from firstId and rising row
   *  numbers within the rows of the run, and are valid exactly when they
   *  have no validation errors. */
  lemma {:induction false} StoredRecordsShape(outcomes: seq<Outcome>, firstId: nat, firstRow: int)
    ensures Numbered(StoredFrom(outcomes, firstId, firstRow), firstId, firstRow, firstRow + |outcomes| - 1)
  {
    if |outcomes| > 0 {
      var head := RecordsOf(outcomes[0], firstId, firstRow);
      var rest := StoredFrom(outcomes[1..], firstId + |head|, firstRow + 1);
      assert StoredFrom(outcomes, firstId, firstRow) == head + rest;
      StoredRecordsShape(outcomes[1..], firstId + |head|, firstRow + 1);
      var lastRow := firstRow + |outcomes| - 1;
      assert firstRow + 1 + |outcomes[1..]| - 1 == lastRow;
      assert Numbered(rest, firstId + |head|, firstRow + 1, lastRow);
      NumberedPrepend(head, rest, firstId, firstRow, lastRow);
    }
  }

  lemma {:induction false} ValidCountAppend(a: seq<ExtractedProduct>, b: seq<ExtractedProduct>)
    ensures ValidCount(a + b) == ValidCount(a) + ValidCount(b)
  {
    if |a| == 0 {
      assert a + b == b;
    } else {
      assert (a + b)[1..] == a[1..] + b;
      ValidCountAppend(a[1..], b);
    }
  }

  /** No more rows are valid than were stored. */
  lemma {:induction false} ValidCountBounded(records: seq<ExtractedProduct>)
    ensures ValidCount(records) <= |records|
  {
    if |records| > 0 {
      ValidCountBounded(records[1..]);
    }
  }

  class UploadSession {
    const id: nat
    const user: nat
    const supermarket: nat
    const uploadType: UploadType
    var status: SessionStatus
    var progress: int
    var totalRows: nat
    var processedRows: nat
    var successfulRows: nat
    var failedRows: nat
    var errorMessage: Option<string>
    var errorDetails: map<string, string>
    var startedAt: Option<int>
    var completedAt: Option<int>
    /** The session's extracted products, in row order. */
    var extracted: seq<ExtractedProduct>
    /** The next id the extracted-product table hands out. */
    var nextProductId: nat

    /** The row counters and extracted products the file pass updates. */
    function Snapshot(): Tally
      reads this`totalRows, this`processedRows, this`failedRows, this`successfulRows,
            this`progress, this`extracted, this`nextProductId
    {
      Tally(totalRows, processedRows, failedRows, successfulRows, progress, extracted, nextProductId)
    }

    /** Extracted-product ids rise along the list and lie below the next fresh id. */
    ghost predicate Valid()
      reads this`extracted, this`nextProductId
    {
      (forall k, l :: 0 <= k < l < |extracted| ==> extracted[k].id < extracted[l].id)
      && (forall k :: 0 <= k < |extracted| ==> extracted[k].id < nextProductId)
    }

    /** A freshly uploaded file (FileUploadView.post). */
    constructor (id: nat, user: nat, supermarket: nat, uploadType: UploadType, firstProductId: nat)
      ensures Valid()
      ensures this.id == id && this.user == user && this.supermarket == supermarket && this.uploadType == uploadType
      ensures status == Uploading && progress == 0
      ensures totalRows == 0 && processedRows == 0 && successfulRows == 0 && failedRows == 0
      ensures errorMessage == None && errorDetails == map[] && startedAt == None && completedAt == None
      ensures extracted == [] && nextProductId == firstProductId
    {
      this.id := id;
      this.user := user;
      this.supermarket := supermarket;
      this.uploadType := uploadType;
      status := Uploading;
      progress := 0;
      totalRows := 0;
      processedRows := 0;
      successfulRows := 0;
      failedRows := 0;
      errorMessage := None;
      errorDetails := map[];
      startedAt := None;
      completedAt := None;
      extracted := [];
      nextProductId := firstProductId;
    }
  }

  /** Ids rising below next stay so when a record with id next is appended. */
  lemma {:induction false} AppendKeepsIdsRising(extracted: seq<ExtractedProduct>, record: ExtractedProduct, next: nat)
    requires forall k, l :: 0 <= k < l < |extracted| ==> extracted[k].id < extracted[l].id
    requires forall k :: 0 <= k < |extracted| ==> extracted[k].id < next
    requires record.id == next
    ensures var e := extracted + [record];
      (forall k, l :: 0 <= k < l < |e| ==> e[k].id < e[l].id) && (forall k :: 0 <= k < |e| ==> e[k].id < next + 1)
  {
  }

  /** extract_product_data: walks the column table field by field, stopping
   *  at the first cleaning error. */
  method ExtractProductData(row: Row, parseDate: Cell -> Option<int>) returns (data: Option<ProductData>)
    ensures data == ProductDataOf(row, parseDate)
  {
    data := GatherFields(Lookup(row), Cleaner(parseDate), Fields);
  }

  /** The loop of extract_product_data: look each field's column up and
   *  clean its cell; stop with None as soon as cleaning raises. */
  method GatherFields(lookup: Field -> Option<Cell>, clean: (Field, Cell) -> Cleaned, fields: seq<Field>)
    returns (data: Option<ProductData>)
    ensures data == Gather(lookup, clean, fields)
  {
    var m: ProductData := map[];
    var i := 0;
    while i < |fields|
      invariant 0 <= i <= |fields|
      invariant Gather(lookup, clean, fields[..i]) == Some(m)
    {
      var f := fields[i];
      assert fields[..i + 1][..i] == fields[..i];
      var value := lookup(f);
      if value.Some? {
        var c := clean(f, value.value);
        if c.Overflow? {
          GatherNoneExtends(lookup, clean, fields, i + 1);
          return None;
        }
        m := m[f := c.value];
      }
      i := i + 1;
    }
    assert fields[..i] == fields;
    data := Some(m);
  }

  /** process_row: extract, validate and store one row; successful_rows
   *  counts the stored rows without validation errors. Returns whether the
   *  row was stored (the source raises otherwise). The ghost o names the
   *  row's outcome. */
  method ProcessRow(s: UploadSession, rowNumber: int, row: Row, env: ReadEnv, ghost o: Outcome) returns (stored: bool)
    requires s.Valid() && o == RowResult(row, env)
    modifies s`extracted, s`nextProductId, s`successfulRows
    ensures s.Valid()
    ensures var added := RecordsOf(o, old(s.nextProductId), rowNumber);
      (stored <==> |added| == 1)
      && s.extracted == old(s.extracted) + added
      && s.nextProductId == old(s.nextProductId) + |added|
      && s.successfulRows == old(s.successfulRows) + ValidCount(added)
  {
    ghost var added := RecordsOf(RowResult(row, env), s.nextProductId, rowNumber);
    var data := ExtractProductData(row, env.parseDate);
    if data.None? {
      assert added == [];
      return false;
    }
    var errors := ValidateProductData(data.value, env.today);
    if !Storable(row, data.value, env) {
      assert added == [];
      return false;
    }
    var record := RecordOf(s.nextProductId, rowNumber, data.value, errors);
    assert added == [record];
    AppendKeepsIdsRising(s.extracted, record, s.nextProductId);
    s.extracted := s.extracted + [record];
    s.nextProductId := s.nextProductId + 1;
    if errors == [] {
      s.successfulRows := s.successfulRows + 1;
    }
    stored := true;
  }

  /** int(part / whole * 100) for whole > 0, computed exactly: the
   *  percentage rounded down. */
  function Percent(part: nat, whole: nat): (r: nat)
    requires whole > 0
    ensures r * whole <= part * 100 < (r + 1) * whole
    ensures part <= whole ==> r <= 100
  {
    part * 100 / whole
  }

  /** The part of a session the file pass updates. */
  datatype Tally = Tally(
    total: nat, processed: nat, failed: nat, successful: nat, progress: int,
    extracted: seq<ExtractedProduct>, nextId: nat)

  /** One row of the file pass that does not abort it: a stored row is
   *  counted as processed (and as successful when valid) and moves the
   *  progress; a row that raised, and whose error was logged, is counted as
   *  failed. */
  function StepRow(t: Tally, outcome: Outcome, rowNumber: int): Tally
  {
    var added := RecordsOf(outcome, t.nextId, rowNumber);
    if |added| == 1 then
      t.(processed := t.processed + 1, successful := t.successful + ValidCount(added),
         progress := if t.total > 0 then Percent(t.processed + 1, t.total) else t.progress,
         extracted := t.extracted + added, nextId := t.nextId + 1)
    else t.(failed := t.failed + 1)
  }

  /** The file pass over a run of row outcomes, rows numbered from firstRow.
   *  ProcessFile runs it over the rows before the first that aborts. */
  function RunRows(t: Tally, outcomes: seq<Outcome>, firstRow: int): Tally
    decreases |outcomes|
  {
    if |outcomes| == 0 then t
    else RunRows(StepRow(t, outcomes[0], firstRow), outcomes[1..], firstRow + 1)
  }

  lemma {:induction false} RunRowsFrom(t: Tally, outcomes: seq<Outcome>, i: nat, row: int)
    requires i < |outcomes|
    ensures RunRows(t, outcomes[i..], row) == RunRows(StepRow(t, outcomes[i], row), outcomes[i + 1..], row + 1)
    decreases |outcomes|
  {
    assert outcomes[i..][1..] == outcomes[i + 1..];
  }

  lemma {:induction false} RunRowsWhole(t: Tally, outcomes: seq<Outcome>, i: int)
    requires i == 0
    ensures RunRows(t, outcomes[i..], i + 1) == RunRows(t, outcomes, 1)
  {
    assert outcomes[i..] == outcomes;
  }

  lemma {:induction false} RunRowsDone(t: Tally, outcomes: seq<Outcome>, row: int)
    ensures RunRows(t, outcomes[|outcomes|..], row) == t
  {
    assert outcomes[|outcomes|..] == [];
  }

  lemma {:induction false} StepRowFields(t: Tally, outcome: Outcome, rowNumber: int)
    ensures var added := RecordsOf(outcome, t.nextId, rowNumber);
      var r := StepRow(t, outcome, rowNumber);
      r.total == t.total && r.extracted == t.extracted + added && r.nextId == t.nextId + |added|
      && r.processed == t.processed + |added| && r.failed == t.failed + (1 - |added|)
      && r.successful == t.successful + ValidCount(added)
      && (|added| == 1 && t.total > 0 ==> r.progress == Percent(r.processed, t.total))
      && (|added| == 0 ==> r.progress == t.progress)
  {
  }

  /** After the pass the stored records are appended and the next id has
   *  moved past them. */
  lemma {:induction false} RunRowsStored(t: Tally, outcomes: seq<Outcome>, firstRow: int)
    ensures var r := RunRows(t, outcomes, firstRow);
      var stored := StoredFrom(outcomes, t.nextId, firstRow);
      r.total == t.total && r.extracted == t.extracted + stored && r.nextId == t.nextId + |stored|
    decreases |outcomes|
  {
    if |outcomes| > 0 {
      var head := RecordsOf(outcomes[0], t.nextId, firstRow);
      var t1 := StepRow(t, outcomes[0], firstRow);
      var rest := StoredFrom(outcomes[1..], t1.nextId, firstRow + 1);
      StepRowFields(t, outcomes[0], firstRow);
      assert StoredFrom(outcomes, t.nextId, firstRow) == head + rest;
      assert RunRows(t, outcomes, firstRow) == RunRows(t1, outcomes[1..], firstRow + 1);
      RunRowsStored(t1, outcomes[1..], firstRow + 1);
      AppendAssoc(t.extracted, head, rest);
    }
  }

  /** The pass counts every stored row as processed and every other row as
   *  failed, the valid stored rows as successful, and leaves the progress
   *  at the processed share of the total once a row was stored. */
  lemma {:induction false} RunRowsCounts(t: Tally, outcomes: seq<Outcome>, firstRow: int)
    ensures var r := RunRows(t, outcomes, firstRow);
      var stored := StoredFrom(outcomes, t.nextId, firstRow);
      r.processed == t.processed + |stored|
      && r.processed + r.failed == t.processed + t.failed + |outcomes|
      && r.successful == t.successful + ValidCount(stored)
      && (|stored| > 0 && t.total > 0 ==> r.progress == Percent(r.processed, t.total))
      && (|stored| == 0 ==> r.progress == t.progress)
    decreases |outcomes|
  {
    if |outcomes| > 0 {
      var head := RecordsOf(outcomes[0], t.nextId, firstRow);
      var t1 := StepRow(t, outcomes[0], firstRow);
      var rest := StoredFrom(outcomes[1..], t1.nextId, firstRow + 1);
      StepRowFields(t, outcomes[0], firstRow);
      assert StoredFrom(outcomes, t.nextId, firstRow) == head + rest;
      assert RunRows(t, outcomes, firstRow) == RunRows(t1, outcomes[1..], firstRow + 1);
      RunRowsCounts(t1, outcomes[1..], firstRow + 1);
      ValidCountAppend(head, rest);
    }
  }

  lemma {:induction false} AppendAssoc(a: seq<ExtractedProduct>, b: seq<ExtractedProduct>, c: seq<ExtractedProduct>)
    ensures a + (b + c) == (a + b) + c
  {
  }

  /** One turn of process_file's row loop on row i (row number i + 1):
   *  process_row, then the counters. outs holds every row's outcome. */
  method ProcessSheetRow(s: UploadSession, rows: seq<Row>, i: nat, env: ReadEnv, ghost outs: seq<Outcome>)
    returns (aborted: bool)
    requires s.Valid() && s.totalRows > 0 && i < |rows| == |outs|
    requires forall j {:trigger RowResult(rows[j], env)} :: 0 <= j < |rows| ==> outs[j] == RowResult(rows[j], env)
    modifies s`extracted, s`nextProductId, s`successfulRows, s`processedRows, s`failedRows, s`progress
    ensures s.Valid()
    ensures aborted <==> Aborts(rows[i], env)
    ensures aborted ==> s.Snapshot() == old(s.Snapshot())
    ensures !aborted ==> s.Snapshot() == StepRow(old(s.Snapshot()), outs[i], i + 1)
  {
    ghost var before := s.Snapshot();
    assert outs[i] == RowResult(rows[i], env);
    var stored := ProcessRow(s, i + 1, rows[i], env, outs[i]);
    aborted := CountRow(s, stored, Loggable(rows[i], env), before, outs[i], i + 1);
  }

  /** process_file's loop over the rows of the sheet, in order. */
  method ProcessRows(s: UploadSession, rows: seq<Row>, env: ReadEnv, ghost outs: seq<Outcome>)
    returns (aborted: bool)
    requires s.Valid() && s.totalRows == |rows| == |outs|
    requires forall j {:trigger RowResult(rows[j], env)} :: 0 <= j < |rows| ==> outs[j] == RowResult(rows[j], env)
    modifies s`extracted, s`nextProductId, s`successfulRows, s`processedRows, s`failedRows, s`progress
    ensures s.Valid()
    ensures aborted <==> Reached(rows, env) < |rows|
    ensures s.Snapshot() == RunRows(old(s.Snapshot()), outs[..Reached(rows, env)], 1)
  {
    ghost var n := Reached(rows, env);
    ghost var pre := outs[..n];
    ghost var t0 := s.Snapshot();
    ghost var final := RunRows(t0, pre, 1);
    var i := 0;
    RunRowsWhole(t0, pre, i);
    aborted := false;
    while i < |rows|
      invariant 0 <= i <= n && s.totalRows == |rows|
      invariant s.Valid()
      invariant RunRows(s.Snapshot(), pre[i..], i + 1) == final
    {
      ghost var before := s.Snapshot();
      aborted := ProcessSheetRow(s, rows, i, env, outs);
      if aborted {
        assert i == n;
        RunRowsDone(before, pre, i + 1);
        return;
      }
      assert i < n;
      RunRowsFrom(before, pre, i, i + 1);
      i := i + 1;
    }
    RunRowsDone(s.Snapshot(), pre, i + 1);
  }

  /** The counting that follows process_row in the loop: a stored row is
   *  processed and moves the progress; for a row that raised, the error log
   *  is written (`logged` says whether its insert succeeds) and the row is
   *  failed, unless the log insert raised, which ends the pass with nothing
   *  counted. The ghost parameters are the state before process_row and
   *  the row's outcome. */
  method CountRow(s: UploadSession, stored: bool, logged: bool, ghost before: Tally, ghost o: Outcome,
                  ghost rowNumber: int) returns (aborted: bool)
    requires s.totalRows == before.total > 0
    requires s.processedRows == before.processed && s.failedRows == before.failed && s.progress == before.progress
    requires var added := RecordsOf(o, before.nextId, rowNumber);
      (stored <==> |added| == 1)
      && s.extracted == before.extracted + added && s.nextProductId == before.nextId + |added|
      && s.successfulRows == before.successful + ValidCount(added)
    modifies s`processedRows, s`failedRows, s`progress
    ensures aborted <==> !stored && !logged
    ensures aborted ==> s.Snapshot() == before
    ensures !aborted ==> s.Snapshot() == StepRow(before, o, rowNumber)
  {
    StepRowFields(before, o, rowNumber);
    aborted := !stored && !logged;
    if aborted {
      return;
    }
    if stored {
      s.processedRows := s.processedRows + 1;
      s.progress := Percent(s.processedRows, s.totalRows);
    } else {
      s.failedRows := s.failedRows + 1;
    }
  }

  /** process_file. An unreadable file (sheet None) puts the session in
   *  ERROR with the reader's message. Otherwise the rows are processed in
   *  order by the pass RunRows, starting from the session's counters with
   *  the total set to the sheet's length. When every row is reached the
   *  session ends COMPLETED; a row that aborts the pass puts it in ERROR
   *  with the log insert's message (logError), keeping the counters of the
   *  rows before it, and the later rows are never looked at. */
  method ProcessFile(s: UploadSession, sheet: Option<seq<Row>>, readError: string, logError: string,
                     env: ReadEnv, now: int)
    returns (ok: bool)
    requires s.Valid()
    modifies s
    ensures s.Valid()
    ensures ok <==> sheet.Some? && Reached(sheet.value, env) == |sheet.value|
    ensures sheet.None? ==>
      s.status == Error && s.errorMessage == Some(readError) && s.Snapshot() == old(s.Snapshot())
    ensures sheet.Some? ==>
      s.Snapshot() == RunRows(old(s.Snapshot()).(total := |sheet.value|),
                              Outcomes(sheet.value, env)[..Reached(sheet.value, env)], 1)
    ensures sheet.Some? && ok ==>
      s.status == Completed && s.completedAt == Some(now) && s.errorMessage == old(s.errorMessage)
    ensures sheet.Some? && !ok ==>
      s.status == Error && s.errorMessage == Some(logError) && s.completedAt == old(s.completedAt)
  {
    if sheet.None? {
      s.status := Error;
      s.errorMessage := Some(readError);
      return false;
    }
    s.status := Processing;
    var aborted := RunSheet(s, sheet.value, env, Outcomes(sheet.value, env));
    if aborted {
      s.status := Error;
      s.errorMessage := Some(logError);
      return false;
    }
    s.status := Completed;
    s.completedAt := Some(now);
    ok := true;
  }

  /** The read sheet's pass: the total set to the sheet's length, then
   *  every row in order. */
  method RunSheet(s: UploadSession, rows: seq<Row>, env: ReadEnv, ghost outs: seq<Outcome>)
    returns (aborted: bool)
    requires s.Valid() && |rows| == |outs|
    requires forall j {:trigger RowResult(rows[j], env)} :: 0 <= j < |rows| ==> outs[j] == RowResult(rows[j], env)
    modifies s`totalRows, s`extracted, s`nextProductId, s`successfulRows, s`processedRows, s`failedRows, s`progress
    ensures s.Valid()
    ensures aborted <==> Reached(rows, env) < |rows|
    ensures s.Snapshot() == RunRows(old(s.Snapshot()).(total := |rows|), outs[..Reached(rows, env)], 1)
  {
    s.totalRows := |rows|;
    aborted := ProcessRows(s, rows, env, outs);
  }

  /** Every row the pass reaches is counted once, as processed or failed; the
   *  row that aborts it and every later row are counted as neither. */
  lemma {:induction false} PassCountsReachedRows(t: Tally, rows: seq<Row>, env: ReadEnv)
    ensures var n := Reached(rows, env);
      var r := RunRows(t, Outcomes(rows, env)[..n], 1);
      r.processed + r.failed == t.processed + t.failed + n
      && (n < |rows| ==> r.processed + r.failed < t.processed + t.failed + |rows|)
  {
    var n := Reached(rows, env);
    RunRowsCounts(t, Outcomes(rows, env)[..n], 1);
  }

  /** A session whose counters start at zero never reports more than 100
   *  percent, and never counts more successful than processed rows. */
  lemma {:induction false} FreshProgressBounded(rows: seq<Row>, env: ReadEnv, firstId: nat)
    requires |StoredRecords(rows, env, firstId)| > 0
    ensures 0 <= Percent(|StoredRecords(rows, env, firstId)|, |rows|) <= 100
    ensures ValidCount(StoredRecords(rows, env, firstId)) <= |StoredRecords(rows, env, firstId)|
  {
    ValidCountBounded(StoredRecords(rows, env, firstId));
  }

  // ---------------------------------------------------------------------
  // Views

  datatype ViewResponse = Ok(message: string) | BadRequest(error: string) | NotFound(error: string) | Accepted(message: string)

  const SessionNotFound := "Upload session not found"

  /** cancel_upload_session on the session the user owns under that id
   *  (null when there is none): only an uploading or processing session
   *  is cancelled; any other status is refused and left as it was. */
  method CancelUploadSession(s: UploadSession?) returns (r: ViewResponse)
    modifies s
    ensures s == null ==> r == NotFound(SessionNotFound)
    ensures s != null && old(s.status) in {Uploading, Processing} ==>
      s.status == Cancelled && r == Ok("Upload session cancelled")
    ensures s != null && old(s.status) !in {Uploading, Processing} ==>
      s.status == old(s.status) && r == BadRequest("Cannot cancel upload session in current status")
    ensures s != null ==> unchanged(s`progress, s`totalRows, s`processedRows, s`successfulRows, s`failedRows,
      s`errorMessage, s`errorDetails, s`startedAt, s`completedAt, s`extracted, s`nextProductId)
  {
    if s == null {
      return NotFound(SessionNotFound);
    }
    if s.status == Uploading || s.status == Processing {
      s.status := Cancelled;
      r := Ok("Upload session cancelled");
    } else {
      r := BadRequest("Cannot cancel upload session in current status");
    }
  }

  /** The processing tasks the scheduler can start. */
  datatype Task = ProcessExcelFile(session: nat) | ProcessImageFile(session: nat)

  /** schedule_file_processing_task: only Excel and image uploads get a
   *  task; a CSV upload is logged and never processed. */
  function ScheduleFileProcessing(session: nat, t: UploadType): (r: Option<Task>)
    ensures r.None? <==> t == Csv
    ensures r.Some? ==> r.value.session == session
    ensures t == Excel ==> r == Some(ProcessExcelFile(session))
    ensures t == Image ==> r == Some(ProcessImageFile(session))
  {
    match t
    case Excel => Some(ProcessExcelFile(session))
    case Image => Some(ProcessImageFile(session))
    case Csv => None
  }

  /** retry_upload_session: only a session in ERROR goes back to
   *  UPLOADING, with progress 0 and its error cleared, and is scheduled
   *  again; the row counters and earlier extracted products stay. */
  method RetryUploadSession(s: UploadSession?) returns (r: ViewResponse, task: Option<Task>)
    modifies s
    ensures s == null ==> r == NotFound(SessionNotFound) && task == None
    ensures s != null && old(s.status) == Error ==>
      s.status == Uploading && s.progress == 0 && s.errorMessage == None && s.errorDetails == map[]
      && r == Ok("Upload session retry started") && task == ScheduleFileProcessing(s.id, s.uploadType)
    ensures s != null && old(s.status) != Error ==>
      s.status == old(s.status) && s.progress == old(s.progress) && s.errorMessage == old(s.errorMessage)
      && s.errorDetails == old(s.errorDetails)
      && r == BadRequest("Cannot retry upload session in current status") && task == None
    ensures s != null ==> unchanged(s`totalRows, s`processedRows, s`successfulRows, s`failedRows,
      s`startedAt, s`completedAt, s`extracted, s`nextProductId)
  {
    task := None;
    if s == null {
      return NotFound(SessionNotFound), None;
    }
    if s.status == Error {
      s.status := Uploading;
      s.progress := 0;
      s.errorMessage := None;
      s.errorDetails := map[];
      task := ScheduleFileProcessing(s.id, s.uploadType);
      r := Ok("Upload session retry started");
    } else {
      r := BadRequest("Cannot retry upload session in current status");
    }
  }

  /** part / whole × 100, and 0 when whole is 0. */
  function Rate(part: nat, whole: nat): (r: real)
    ensures whole == 0 ==> r == 0.0
    ensures whole > 0 ==> r * (whole as real) == (part as real) * 100.0
    ensures part <= whole ==> 0.0 <= r <= 100.0
  {
    if whole > 0 then (part as real) / (whole as real) * 100.0 else 0.0
  }

  function CountStatus(statuses: seq<SessionStatus>, wanted: set<SessionStatus>): (n: nat)
    ensures n <= |statuses|
  {
    if |statuses| == 0 then 0
    else CountStatus(statuses[..|statuses| - 1], wanted) + (if statuses[|statuses| - 1] in wanted then 1 else 0)
  }

  function CountTrue(flags: seq<bool>): (n: nat)
    ensures n <= |flags|
  {
    if |flags| == 0 then 0 else CountTrue(flags[..|flags| - 1]) + (if flags[|flags| - 1] then 1 else 0)
  }

  datatype UploadStats = UploadStats(
    totalSessions: nat, completedSessions: nat, failedSessions: nat, processingSessions: nat,
    totalProductsExtracted: nat, totalProductsImported: nat,
    successRate: real, importRate: real)

  /** upload_session_stats over the statuses of the user's sessions and the
   *  is_processed flags of their extracted products. */
  function UploadSessionStats(statuses: seq<SessionStatus>, processed: seq<bool>): UploadStats
  {
    var total := |statuses|;
    var completed := CountStatus(statuses, {Completed});
    var extracted := |processed|;
    var imported := CountTrue(processed);
    UploadStats(total, completed, CountStatus(statuses, {Error}), CountStatus(statuses, {Uploading, Processing}),
      extracted, imported, Rate(completed, total), Rate(imported, extracted))
  }

  /** Counting disjoint statuses never counts a session twice. */
  lemma {:induction false} CountDisjoint(statuses: seq<SessionStatus>, a: set<SessionStatus>, b: set<SessionStatus>)
    requires a !! b
    ensures CountStatus(statuses, a) + CountStatus(statuses, b) == CountStatus(statuses, a + b)
  {
    if |statuses| > 0 {
      CountDisjoint(statuses[..|statuses| - 1], a, b);
    }
  }

  /** Completed, failed and in-flight sessions together never exceed the
   *  total (cancelled ones are in none of them), and both rates are
   *  percentages. */
  lemma {:induction false} StatsConsistent(statuses: seq<SessionStatus>, processed: seq<bool>)
    ensures var st := UploadSessionStats(statuses, processed);
      st.completedSessions + st.failedSessions + st.processingSessions <= st.totalSessions
      && 0.0 <= st.successRate <= 100.0 && 0.0 <= st.importRate <= 100.0
  {
    CountDisjoint(statuses, {Completed}, {Error});
    CountDisjoint(statuses, {Completed, Error}, {Uploading, Processing});
    assert {Completed} + {Error} == {Completed, Error};
    assert {Completed, Error} + {Uploading, Processing} == {Completed, Error, Uploading, Processing};
  }

  /** The products an import takes: valid, not yet imported, and among the
   *  chosen ids when any were chosen. */
  predicate Eligible(p: ExtractedProduct, productIds: seq<nat>)
  {
    p.isValid && !p.isProcessed && (|productIds| == 0 || p.id in productIds)
  }

  /** Positions of the eligible products, in order. */
  function EligibleIndices(extracted: seq<ExtractedProduct>, productIds: seq<nat>): (r: seq<nat>)
    ensures forall m :: 0 <= m < |r| ==> r[m] < |extracted| && Eligible(extracted[r[m]], productIds)
    ensures forall m, n :: 0 <= m < n < |r| ==> r[m] < r[n]
    ensures forall k :: 0 <= k < |extracted| && Eligible(extracted[k], productIds) ==> k in r
  {
    if |extracted| == 0 then []
    else
      var prev := EligibleIndices(extracted[..|extracted| - 1], productIds);
      if Eligible(extracted[|extracted| - 1], productIds) then prev + [|extracted| - 1] else prev
  }

  datatype OperationType = Import | Update | Delete | Validate
  datatype BatchStatus = Pending | Running | BatchCompleted | Failed | BatchCancelled

  /** Counters of one import run. */
  datatype ImportResults = ImportResults(imported: nat, updated: nat, skipped: nat, errors: nat)

  class BatchOperation {
    const session: nat
    const user: nat
    const operationType: OperationType
    var status: BatchStatus
    var totalItems: int
    var processedItems: int
    var successfulItems: int
    var failedItems: int
    var resultSummary: Option<ImportResults>
    var errorDetails: seq<string>
    var startedAt: Option<int>
    var completedAt: Option<int>

    constructor (session: nat, user: nat, operationType: OperationType, totalItems: int)
      ensures this.session == session && this.user == user && this.operationType == operationType
      ensures this.totalItems == totalItems && status == Pending
      ensures processedItems == 0 && successfulItems == 0 && failedItems == 0
      ensures resultSummary == None && errorDetails == [] && startedAt == None && completedAt == None
    {
      this.session := session;
      this.user := user;
      this.operationType := operationType;
      this.totalItems := totalItems;
      status := Pending;
      processedItems := 0;
      successfulItems := 0;
      failedItems := 0;
      resultSummary := None;
      errorDetails := [];
      startedAt := None;
      completedAt := None;
    }
  }

  /** ProductImportView.post once the request is valid: with nothing
   *  eligible the import is refused; otherwise a pending IMPORT batch is
   *  created whose total is the number of eligible products, and the answer
   *  names that number. */
  method StartImport(s: UploadSession, user: nat, productIds: seq<nat>) returns (r: ViewResponse, batch: BatchOperation?)
    ensures |EligibleIndices(s.extracted, productIds)| == 0 ==>
      r == BadRequest("No valid products to import") && batch == null
    ensures |EligibleIndices(s.extracted, productIds)| > 0 ==>
      batch != null && fresh(batch)
      && r == Accepted("Import started for " + Seqs.NatToString(|EligibleIndices(s.extracted, productIds)|) + " products")
      && batch.totalItems == |EligibleIndices(s.extracted, productIds)|
      && batch.session == s.id && batch.user == user && batch.operationType == Import && batch.status == Pending
  {
    var total := |EligibleIndices(s.extracted, productIds)|;
    if total == 0 {
      return BadRequest("No valid products to import"), null;
    }
    batch := new BatchOperation(s.id, user, Import, total);
    r := Accepted("Import started for " + Seqs.NatToString(total) + " products");
  }
}
