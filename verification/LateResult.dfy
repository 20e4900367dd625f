/**
 * A finished batch can count one run twice: an execution in which the reaper fails a run whose worker
 * is merely slow, and the result then arrives.
 */
module LateResult {
  import opened Basics
  import opened Ledger
  import opened Lifecycle
  import opened OneRun

  ghost predicate Overcounted(db: Db, b: BatchId) {
    b in db.batches && db.batches[b].succeeded + db.batches[b].failed > db.batches[b].total
  }

  function Answer(): Result { Result(1, 7, "core1", Collect, true, None, None) }

  /** Dispatch one run, let the reaper fail it while a worker holds it, then persist its result. */
  function LateSteps(): seq<Step> {
    SendingSteps(Collect) + [Deliver(1)] + [ReapBatch(1, 1800)] + [WorkerPublish(1)] + [PersistResult(Answer(), 1801)]
  }

  lemma CountsAgain(s: State, run: Run, batch: Batch)
    requires s.db.runs == map[1 := run] && s.db.batches == map[1 := batch]
    requires run.batch == Some(1) && run.status == Failed && !IsOpen(batch) && batch.failed == batch.total == 1
    ensures Overcounted(Persist(s, Answer(), 1801).db, 1) == true
  {
    assert Recorded(s, Answer()).db.batches[1] == batch.(succeeded := batch.succeeded + 1);
  }

  /** The counters of a finished batch may add up to more than its runs: the sum is `total + late`. */
  lemma LateResultsExceedTotal(w0: World) returns (ws: seq<World>, steps: seq<Step>)
    requires Init(w0)
    ensures Execution(ws, steps) == true && steps == LateSteps() && Overcounted(ws[|steps|].s.db, 1)
  {
    var w;
    ws, steps, w := Sent(w0, Collect);
    ws, steps, w := Delivered(ws, steps, w);
    ReapTables(w.s, TheRun(), TheBatch(Collect), 1800);
    ws, steps, w := Reaped(ws, steps, w, 1800);
    ws, steps, w := Answered(ws, steps, w);
    CountsAgain(w.s, w.s.db.runs[1], w.s.db.batches[1]);
    ws, steps, w := Persisted(ws, steps, w, Answer(), 1801);
  }
}
