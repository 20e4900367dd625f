/** The protocol's guarantees, for every execution of the whole system. */
module Guarantees {
  import opened Basics
  import opened GitStore
  import opened Ledger
  import opened Books
  import opened Staging
  import opened Lifecycle
  import opened Safety
  import opened Executions

  // ----- counters -----

  /**
   * In every reachable state each batch's counters are its runs' statuses, plus one failure for every
   * result that came in after the reaper had failed its run. An open batch has had no such result.
   */
  lemma CountersMatch(ws: seq<World>, steps: seq<Step>, i: nat, b: BatchId)
    requires Execution(ws, steps) && i < |ws| && b in ws[i].s.db.batches
    ensures var (runs, batch, late) := (ws[i].s.db.runs, ws[i].s.db.batches[b], GetCount(ws[i].h.late, b));
      && |Members(runs, b)| == batch.total
      && batch.succeeded == |Having(runs, b, Success)|
      && batch.failed == |Having(runs, b, Failed)| + |Having(runs, b, Cancelled)| + late
      && batch.succeeded + batch.failed == batch.total - |Having(runs, b, Pending)| + late
      && (IsOpen(batch) ==> late == 0 && batch.succeeded + batch.failed <= batch.total)
      && (!IsOpen(batch) ==> Having(runs, b, Pending) == {})
      && Having(runs, b, Running) == {} && Having(runs, b, TimedOut) == {}
  {
    Reachable(ws, steps, i);
    BalancedCounts(ws[i].s.db, ws[i].h.late, b);
  }

  lemma BalancedCounts(db: Db, late: map<BatchId, nat>, b: BatchId)
    requires DbBalanced(db, late) && b in db.batches
    ensures var (runs, batch, n) := (db.runs, db.batches[b], GetCount(late, b));
      && Balanced(runs, b, batch, n)
      && batch.succeeded + batch.failed == batch.total - |Having(runs, b, Pending)| + n
      && (IsOpen(batch) ==> batch.succeeded + batch.failed <= batch.total)
      && Having(runs, b, Running) == {} && Having(runs, b, TimedOut) == {}
  {
    assert Balanced(db.runs, b, db.batches[b], GetCount(late, b));
    Split(db.runs, b, db.batches[b], GetCount(late, b));
    forall r ensures r !in Having(db.runs, b, Running) && r !in Having(db.runs, b, TimedOut) {}
  }

  /** A result is counted a second time only when it is persisted for a run the reaper failed, after its batch was
      closed; no other step moves the late count of any batch. */
  lemma LateOnlyAfterReaping(ws: seq<World>, steps: seq<Step>, i: nat)
    requires Execution(ws, steps) && i < |steps|
    requires ws[i + 1].h.late != ws[i].h.late
    ensures steps[i].PersistResult?
    ensures var (w, r) := (ws[i], steps[i].res.run);
      && r in w.s.db.runs && w.s.db.runs[r].status == Failed && r in w.h.reaped
      && w.s.db.runs[r].batch.Some? && w.s.db.runs[r].batch.value in w.s.db.batches
      && !IsOpen(w.s.db.batches[w.s.db.runs[r].batch.value])
  {
    Reachable(ws, steps, i);
    assert StepAt(ws, steps, i);
    LateStep(ws[i], steps[i]);
    LateRun(ws[i], steps[i].res);
  }

  lemma LateStep(w: World, step: Step)
    requires Enabled(w, step) && Apply(w, step).h.late != w.h.late
    ensures step.PersistResult? && step.res.run in w.results
    ensures !Discards(w.s, step.res) && LateAfter(w.s.db, step.res, w.h.late) != w.h.late
  {
    if step.PersistResult? {
      PersistMovesLate(w, step);
    } else {
      OthersKeepLate(w, step);
    }
  }

  lemma PersistMovesLate(w: World, step: Step)
    requires Enabled(w, step) && step.PersistResult?
    ensures step.res.run in w.results
    ensures Apply(w, step).h.late == if Discards(w.s, step.res) then w.h.late else LateAfter(w.s.db, step.res, w.h.late)
  {
    assert Apply(w, step) == AfterPersist(w, step.res, step.now);
  }

  lemma LateRun(w: World, res: Result)
    requires Inv(w) && res.run in w.results && !Discards(w.s, res) && LateAfter(w.s.db, res, w.h.late) != w.h.late
    ensures var r := res.run;
      && r in w.s.db.runs && w.s.db.runs[r].status == Failed && r in w.h.reaped
      && w.s.db.runs[r].batch.Some? && w.s.db.runs[r].batch.value in w.s.db.batches
      && !IsOpen(w.s.db.batches[w.s.db.runs[r].batch.value])
  {
    assert RunOk(w, res.run);
  }

  lemma OthersKeepLate(w: World, step: Step)
    requires Enabled(w, step) && !step.PersistResult?
    ensures Apply(w, step).h.late == w.h.late
  {
    if IsRecorders(step) {
      RecorderKeepsLate(w, step);
    } else {
      OthersKeepFiles(w, step);
    }
  }

  lemma RecorderKeepsLate(w: World, step: Step)
    requires Enabled(w, step) && IsRecorders(step) && !step.PersistResult?
    ensures Recording(w, step).h.late == w.h.late
  {
    match step
    case PersistRaises(res, how, now) => CrashKeepsLate(w, res, how, now);
    case ReapBatch(b, now) => ReapKeepsLate(w, b, now);
    case ReapRaises(b, committed, added, now) => ReapCrashKeepsLate(w, b, committed, added, now);
    case RestartRecorder => RestartKeepsLate(w);
  }

  lemma CrashKeepsLate(w: World, res: Result, how: Crash, now: Time)
    requires MayCrash(w.s, res, how)
    ensures AfterCrash(w, res, how, now).h.late == w.h.late
  {
  }

  lemma ReapKeepsLate(w: World, b: BatchId, now: Time)
    requires b in w.s.db.batches
    ensures AfterReap(w, b, now).h.late == w.h.late
  {
  }

  lemma ReapCrashKeepsLate(w: World, b: BatchId, committed: bool, added: bool, now: Time)
    requires b in w.s.db.batches
    ensures AfterReapCrash(w, b, committed, added, now).h.late == w.h.late
  {
  }

  lemma RestartKeepsLate(w: World)
    ensures AfterRestart(w).h.late == w.h.late
  {
  }

  // ----- messages -----

  predicate Consumes(step: Step, r: RunId) {
    (step.PersistResult? || step.PersistRaises?) && step.res.run == r
  }

  lemma TakesResult(w: World, w': World, r: RunId)
    requires Inv(w) && r in w.results && w'.h.published == w.h.published
    requires w'.jobs == w.jobs && w'.held == w.held && w'.results == w.results - multiset{r}
    ensures Tokens(w)[r] == 1 && r in w'.h.published && r !in Tokens(w')
  {
    assert Tokens(w)[r] == 1;
    assert Tokens(w') == Tokens(w) - multiset{r};
  }

  /** In every reachable state a run has at most one message under way, wherever it is. */
  lemma AtMostOneMessage(ws: seq<World>, steps: seq<Step>, i: nat, r: RunId)
    requires Execution(ws, steps) && i < |ws|
    ensures ws[i].jobs[r] + ws[i].held[r] + ws[i].results[r] <= 1
    ensures r in ws[i].jobs || r in ws[i].held || r in ws[i].results ==> r in ws[i].h.published
  {
    Reachable(ws, steps, i);
    assert Tokens(ws[i])[r] <= 1;
  }

  /** The recorder never handles two results of one run. */
  lemma AtMostOneResult(ws: seq<World>, steps: seq<Step>, i: nat, j: nat, r: RunId)
    requires Execution(ws, steps) && i < |steps| && j < |steps|
    requires Consumes(steps[i], r) && Consumes(steps[j], r)
    ensures i == j
    ensures Tokens(ws[i])[r] == 1
  {
    ConsumedAt(ws, steps, i, r);
    ConsumedAt(ws, steps, j, r);
    if i < j {
      Later(ws, steps, i + 1, j);
    } else if j < i {
      Later(ws, steps, j + 1, i);
    }
  }

  lemma ConsumedAt(ws: seq<World>, steps: seq<Step>, i: nat, r: RunId)
    requires Execution(ws, steps) && i < |steps| && Consumes(steps[i], r)
    ensures Tokens(ws[i])[r] == 1 && r in ws[i + 1].h.published && r !in Tokens(ws[i + 1])
  {
    Reachable(ws, steps, i);
    MessageTaken(ws, steps, i);
    TakesResult(ws[i], ws[i + 1], r);
  }

  lemma MessageTaken(ws: seq<World>, steps: seq<Step>, i: nat)
    requires Execution(ws, steps) && i < |steps| && (steps[i].PersistResult? || steps[i].PersistRaises?)
    ensures var (w, w', r) := (ws[i], ws[i + 1], steps[i].res.run);
      && r in w.results && w'.h.published == w.h.published
      && w'.jobs == w.jobs && w'.held == w.held && w'.results == w.results - multiset{r}
  {
    assert StepAt(ws, steps, i);
  }

  // ----- statuses and closing -----

  /** Cancelled and successful runs never change; a failed run changes only if the reaper failed it. */
  lemma StatusesAreFinal(ws: seq<World>, steps: seq<Step>, i: nat, j: nat, r: RunId)
    requires Execution(ws, steps) && i <= j < |ws| && r in ws[i].s.db.runs
    ensures r in ws[j].s.db.runs
    ensures var (before, after) := (ws[i].s.db.runs[r].status, ws[j].s.db.runs[r].status);
      && (before == Cancelled || before == Success ==> after == before)
      && (before == Failed && after != Failed ==> r in ws[i].h.reaped)
  {
    Later(ws, steps, i, j);
    assert RunEvolves(ws[i], ws[j], r);
  }

  /**
   * A batch is finished at most once, by whichever handler gets there first; from then on its finishing
   * time, its sha and the sha on every one of its runs stay what they are, and no run of it is pending.
   */
  lemma FinishedOnce(ws: seq<World>, steps: seq<Step>, i: nat, j: nat, b: BatchId)
    requires Execution(ws, steps) && i <= j < |ws|
    requires b in ws[i].s.db.batches && !IsOpen(ws[i].s.db.batches[b])
    ensures b in ws[j].s.db.batches
    ensures ws[j].s.db.batches[b].finishedAt == ws[i].s.db.batches[b].finishedAt
    ensures Having(ws[j].s.db.runs, b, Pending) == {}
    ensures forall r | r in ws[j].s.db.runs && ws[j].s.db.runs[r].batch == Some(b) ::
      ws[j].s.db.runs[r].commitSha == ws[j].s.db.batches[b].commitSha == ws[i].s.db.batches[b].commitSha
  {
    Later(ws, steps, i, j);
    Reachable(ws, steps, j);
    assert BatchEvolves(ws[i].s.db.batches[b], ws[j].s.db.batches[b]);
  }

  /** An open batch for which some job was published still has a pending run. */
  lemma OpenMeansPending(ws: seq<World>, steps: seq<Step>, i: nat, r: RunId)
    requires Execution(ws, steps) && i < |ws|
    requires r in ws[i].s.db.runs && r in ws[i].h.published
    ensures var b := ws[i].s.db.runs[r].batch;
      && b.Some? && b.value in ws[i].s.db.batches
      && (IsOpen(ws[i].s.db.batches[b.value]) <==> Having(ws[i].s.db.runs, b.value, Pending) != {})
  {
    Reachable(ws, steps, i);
    var w := ws[i];
    var b := w.s.db.runs[r].batch.value;
    Split(w.s.db.runs, b, w.s.db.batches[b], GetCount(w.h.late, b));
    assert RunOk(w, r);
  }

  /** Every pending run of the batch was published and its message has not been lost. */
  ghost predicate Accounted(w: World, b: BatchId) {
    forall r | r in Having(w.s.db.runs, b, Pending) :: r in w.h.published && r !in w.h.lost
  }

  /**
   * Without lost messages a batch cannot hang: while it is open some run of it still owns a message,
   * and the result of the last pending run closes it.
   */
  lemma LastResultCloses(ws: seq<World>, steps: seq<Step>, i: nat, b: BatchId, published: RunId)
    requires Execution(ws, steps) && i < |ws|
    requires b in ws[i].s.db.batches && IsOpen(ws[i].s.db.batches[b]) && Accounted(ws[i], b)
    requires published in Members(ws[i].s.db.runs, b) && published in ws[i].h.published
    ensures exists r :: r in Having(ws[i].s.db.runs, b, Pending) && r in Tokens(ws[i])
    ensures forall res: Result, now | Having(ws[i].s.db.runs, b, Pending) == {res.run} ::
      b in Persist(ws[i].s, res, now).db.batches && !IsOpen(Persist(ws[i].s, res, now).db.batches[b])
  {
    var w := ws[i];
    Reachable(ws, steps, i);
    OpenMeansPending(ws, steps, i, published);
    var pending := Having(w.s.db.runs, b, Pending);
    var r := Pick(pending);
    assert RunOk(w, r);
    forall res: Result, now | Having(w.s.db.runs, b, Pending) == {res.run}
      ensures b in Persist(w.s, res, now).db.batches && !IsOpen(Persist(w.s, res, now).db.batches[b])
    {
      LastCounted(w, b, res, now);
    }
  }

  lemma LastCounted(w: World, b: BatchId, res: Result, now: Time)
    requires Inv(w) && b in w.s.db.batches && IsOpen(w.s.db.batches[b])
    requires Having(w.s.db.runs, b, Pending) == {res.run}
    ensures b in Persist(w.s, res, now).db.batches && !IsOpen(Persist(w.s, res, now).db.batches[b])
  {
    assert res.run in Having(w.s.db.runs, b, Pending);
    Split(w.s.db.runs, b, w.s.db.batches[b], GetCount(w.h.late, b));
    var s' := Recorded(w.s, res);
    RecordedRows(w.s, res);
    assert IsFull(s'.db.batches[b]) by {
      var counted := Count(w.s, res);
      if Captures(res) {
        CaptureTouches(counted, res);
      }
      assert s'.db.batches[b].succeeded + s'.db.batches[b].failed
        == w.s.db.batches[b].succeeded + w.s.db.batches[b].failed + 1;
    }
    CloseRows(s', b, res.finishedAt.GetOr(now), now);
  }

  /** Cancelling closes a batch for good, whatever was pending. */
  lemma CancelCloses(ws: seq<World>, steps: seq<Step>, i: nat)
    requires Execution(ws, steps) && i < |steps| && steps[i].CancelBatch?
    requires steps[i].b in ws[i].s.db.batches
    ensures var (db, b) := (ws[i + 1].s.db, steps[i].b);
      && b in db.batches && !IsOpen(db.batches[b]) && Having(db.runs, b, Pending) == {}
  {
    Reachable(ws, steps, i);
    assert StepAt(ws, steps, i);
    CancelledBatch(ws[i], steps[i].b, steps[i].now);
  }

  lemma CancelledBatch(w: World, b: BatchId, now: Time)
    requires Inv(w) && b in w.s.db.batches
    ensures var db := AfterCancel(w, b, now).s.db;
      b in db.batches && !IsOpen(db.batches[b]) && Having(db.runs, b, Pending) == {}
  {
    var db := Cancel(w.s.db, b, now);
    CancelKeeps(w.s.db, b, now, w.h.late);
    CancelRows(w.s.db, b, now);
    ClosedHasNone(db.runs, b, db.batches[b], GetCount(w.h.late, b));
  }

  // ----- purging -----

  /**
   * A purge is safe although its snapshot, its delete and its cancellation are separate: whatever
   * happened to a snapshotted message in between, a run already decided keeps its status, a pending one
   * becomes cancelled and stays so through any later result, and every batch still balances.
   */
  lemma PurgeCountsOnce(ws: seq<World>, steps: seq<Step>, j: nat, later: nat, r: RunId)
    requires Execution(ws, steps) && j < |steps| && steps[j].PurgeCancel?
    requires steps[j].k in ws[j].purges && r in ws[j].purges[steps[j].k] && r in ws[j].s.db.runs
    requires j < later < |ws|
    ensures var (before, after) := (ws[j].s.db.runs[r].status, ws[j + 1].s.db);
      && r in after.runs && r in ws[later].s.db.runs
      && (before != Pending ==> after.runs[r].status == before)
      && (before == Pending ==> after.runs[r].status == Cancelled && ws[later].s.db.runs[r].status == Cancelled)
      && DbBalanced(after, ws[j].h.late) == true
  {
    PurgedAt(ws, steps, j, r);
    StatusesAreFinal(ws, steps, j + 1, later, r);
  }

  lemma PurgedAt(ws: seq<World>, steps: seq<Step>, j: nat, r: RunId)
    requires Execution(ws, steps) && j < |steps| && steps[j].PurgeCancel?
    requires steps[j].k in ws[j].purges && r in ws[j].purges[steps[j].k] && r in ws[j].s.db.runs
    ensures Decided(ws[j].s.db, ws[j + 1].s.db, ws[j].h.late, r) == true
  {
    Reachable(ws, steps, j);
    PurgeAt(ws, steps, j);
    PurgeDecides(ws[j], ws[j].purges[steps[j].k], steps[j].now, r);
  }

  lemma PurgeAt(ws: seq<World>, steps: seq<Step>, j: nat)
    requires Execution(ws, steps) && j < |steps| && steps[j].PurgeCancel?
    ensures steps[j].k in ws[j].purges && ws[j + 1] == AfterPurge(ws[j], steps[j].k, steps[j].now)
  {
    assert StepAt(ws, steps, j);
  }

  /** The run is cancelled if it was pending, else as it was; and all batches balance. */
  ghost predicate Decided(db: Db, db': Db, late: map<BatchId, nat>, r: RunId) {
    && r in db.runs && r in db'.runs && DbBalanced(db', late)
    && db'.runs[r].status == if db.runs[r].status == Pending then Cancelled else db.runs[r].status
  }

  lemma PurgeDecides(w: World, ids: set<RunId>, now: Time, r: RunId)
    requires Inv(w) && r in ids && r in w.s.db.runs
    ensures Decided(w.s.db, Purge(w.s.db, ids, now), w.h.late, r) == true
  {
    PurgeSettles(w.s.db, ids, now);
    PurgeKeeps(w.s.db, ids, now, w.h.late);
    if r in Doomed(w.s.db.runs, ids) {
      PurgedRun(w, ids, now, r);
    }
  }
}
