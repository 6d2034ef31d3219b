/** The background import job of file_processing/tasks.py
 *  (import_products_batch): it runs the product importer over the batch's
 *  upload session and records the counters on the batch operation. */
module ImportTasks {
  import opened Wrappers
  import opened UploadSessions
  import opened ProductImport

  /** sum(results.values()): everything the importer looked at. */
  function ProcessedItems(r: ImportResults): nat
  {
    r.imported + r.updated + r.skipped + r.errors
  }

  /** The counters of an import run from zero over the eligible products
   *  selected by productIds (all of them for an empty selection). */
  function BatchResults(t: Table, extracted: seq<ExtractedProduct>, productIds: seq<nat>, supermarket: nat, user: nat, today: int): ImportResults
  {
    ImportRun(RunState(t, extracted, ImportResults(0, 0, 0, 0)), EligibleIndices(extracted, productIds), supermarket, user, today).results
  }

  /** The batch counters agree with each other and with the selection: the
   *  processed items are the successful plus the failed ones, and their
   *  number is the number of eligible products in the selection. */
  lemma {:induction false} BatchAccounts(t: Table, extracted: seq<ExtractedProduct>, productIds: seq<nat>, supermarket: nat, user: nat, today: int)
    requires BarcodesUnique(t.products)
    ensures var r := BatchResults(t, extracted, productIds, supermarket, user, today);
      ProcessedItems(r) == (r.imported + r.updated) + r.errors
      && ProcessedItems(r) == |EligibleIndices(extracted, productIds)|
  {
    ImportAccounts(t, extracted, productIds, supermarket, user, today);
  }

  /** The job body once the batch is running: the importer's counters are
   *  copied to the batch, which becomes COMPLETED. A failure (the message
   *  of an exception raised before any product was imported) makes it
   *  FAILED with that one error entry instead. */
  method RunBatch(b: BatchOperation, s: UploadSession, c: Catalog, productIds: seq<nat>,
                  start: int, finish: int, today: int, failure: Option<string>)
    requires b.session == s.id
    modifies b, s`extracted, c
    ensures b.startedAt == Some(start) && b.completedAt == Some(finish)
    ensures failure.Some? ==>
      b.status == Failed && b.errorDetails == [failure.value]
      && s.extracted == old(s.extracted) && c.Snapshot() == old(c.Snapshot())
    ensures failure.None? ==>
      var todo := EligibleIndices(old(s.extracted), productIds);
      var r := ImportRun(RunState(old(c.Snapshot()), old(s.extracted), ImportResults(0, 0, 0, 0)), todo, s.supermarket, s.user, today);
      c.Snapshot() == r.table && s.extracted == r.extracted
      && b.status == BatchCompleted && b.resultSummary == Some(r.results)
      && b.successfulItems == r.results.imported + r.results.updated
      && b.failedItems == r.results.errors
      && b.processedItems == ProcessedItems(r.results)
      && b.errorDetails == old(b.errorDetails)
    ensures b.totalItems == old(b.totalItems)
  {
    b.status := Running;
    b.startedAt := Some(start);
    if failure.Some? {
      b.status := Failed;
      b.errorDetails := [failure.value];
      b.completedAt := Some(finish);
      return;
    }
    ghost var table0, extracted0 := c.Snapshot(), s.extracted;
    var results := ImportProducts(s, c, productIds, s.user, today);
    ghost var r := ImportRun(RunState(table0, extracted0, ImportResults(0, 0, 0, 0)),
                             EligibleIndices(extracted0, productIds), s.supermarket, s.user, today);
    assert c.Snapshot() == r.table && s.extracted == r.extracted && results == r.results;
    assert b.startedAt == Some(start) && b.errorDetails == old(b.errorDetails) && b.totalItems == old(b.totalItems);
    Complete(b, results, finish);
  }

  /** The counters of a finished run copied to the batch. */
  method Complete(b: BatchOperation, results: ImportResults, finish: int)
    modifies b
    ensures b.successfulItems == results.imported + results.updated
    ensures b.failedItems == results.errors && b.processedItems == ProcessedItems(results)
    ensures b.resultSummary == Some(results) && b.status == BatchCompleted && b.completedAt == Some(finish)
    ensures b.startedAt == old(b.startedAt) && b.errorDetails == old(b.errorDetails) && b.totalItems == old(b.totalItems)
  {
    b.successfulItems := results.imported + results.updated;
    b.failedItems := results.errors;
    b.processedItems := ProcessedItems(results);
    b.resultSummary := Some(results);
    b.status := BatchCompleted;
    b.completedAt := Some(finish);
  }

  /** import_products_batch as written: the importer is called without the
   *  product selection the import request was counted with. */
  method ImportProductsBatch(b: BatchOperation, s: UploadSession, c: Catalog,
                             start: int, finish: int, today: int, failure: Option<string>)
    requires b.session == s.id
    modifies b, s`extracted, c
    ensures failure.None? ==>
      b.processedItems == ProcessedItems(BatchResults(old(c.Snapshot()), old(s.extracted), [], s.supermarket, s.user, today))
  {
    RunBatch(b, s, c, [], start, finish, today, failure);
  }

  /** The batch with the selection passed through to the importer. */
  method ImportProductsBatchSelected(b: BatchOperation, s: UploadSession, c: Catalog, productIds: seq<nat>,
                                     start: int, finish: int, today: int, failure: Option<string>)
    requires b.session == s.id
    modifies b, s`extracted, c
    ensures failure.None? ==>
      b.processedItems == ProcessedItems(BatchResults(old(c.Snapshot()), old(s.extracted), productIds, s.supermarket, s.user, today))
  {
    RunBatch(b, s, c, productIds, start, finish, today, failure);
  }

  /** As written, selecting product 1 out of two eligible products 1 and 2
   *  announces a total of 1, while the job imports both. */
  lemma {:induction false} BatchIgnoresSelection(t: Table, e1: ExtractedProduct, e2: ExtractedProduct, supermarket: nat, user: nat, today: int)
    requires BarcodesUnique(t.products)
    requires e1.id == 1 && e2.id == 2
    requires e1.isValid && !e1.isProcessed && e2.isValid && !e2.isProcessed
    ensures |EligibleIndices([e1, e2], [1])| == 1
    ensures ProcessedItems(BatchResults(t, [e1, e2], [], supermarket, user, today)) == 2
  {
    var es := [e1, e2];
    assert |EligibleIndices(es, [1])| == 1 by {
      assert es[..1] == [e1] && [e1][..0] == [];
      assert Eligible(e1, [1]) && !Eligible(e2, [1]);
      assert EligibleIndices([e1], [1]) == [0];
    }
    assert |EligibleIndices(es, [])| == 2 by {
      assert es[..1] == [e1] && [e1][..0] == [];
      assert Eligible(e1, []) && Eligible(e2, []);
      assert EligibleIndices([e1], []) == [0];
    }
    BatchAccounts(t, es, [], supermarket, user, today);
  }
}
