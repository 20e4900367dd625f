/** What holds in every reachable state, and between any two states of an execution. */
module Executions {
  import opened Basics
  import opened GitStore
  import opened Ledger
  import opened Books
  import opened Staging
  import opened Lifecycle
  import opened Safety

  // ----- two states of one execution -----

  /** Cancelled and successful runs are final; a failed one is too, unless the reaper failed it. */
  ghost predicate RunEvolves(w: World, w': World, r: RunId)
    requires r in w.s.db.runs && r in w'.s.db.runs
  {
    var run, run' := w.s.db.runs[r], w'.s.db.runs[r];
    && run'.batch == run.batch
    && (run.status == Cancelled ==> run'.status == Cancelled)
    && (run.status == Success ==> run'.status == Success)
    && (run.status == Failed && r !in w.h.reaped ==> run'.status == Failed && r !in w'.h.reaped)
  }

  /** A finished batch keeps its finishing time and its sha. */
  ghost predicate BatchEvolves(batch: Batch, batch': Batch) {
    && batch'.total == batch.total && batch'.kind == batch.kind
    && (!IsOpen(batch) ==> batch'.finishedAt == batch.finishedAt && batch'.commitSha == batch.commitSha)
  }

  ghost predicate Evolves(w: World, w': World) {
    && (forall r | r in w.s.db.runs :: r in w'.s.db.runs && RunEvolves(w, w', r))
    && (forall b | b in w.s.db.batches :: b in w'.s.db.batches && BatchEvolves(w.s.db.batches[b], w'.s.db.batches[b]))
    && (forall r | r in w.h.published && r !in Tokens(w) :: r in w'.h.published && r !in Tokens(w'))
    && w.h.reaped <= w'.h.reaped
  }

  lemma EvolvesReflexive(w: World)
    ensures Evolves(w, w)
  {
  }

  lemma EvolvesTransitive(w0: World, w1: World, w2: World)
    requires Evolves(w0, w1) && Evolves(w1, w2)
    ensures Evolves(w0, w2)
  {
    forall r | r in w0.s.db.runs ensures r in w2.s.db.runs && RunEvolves(w0, w2, r) {
      assert RunEvolves(w0, w1, r) && RunEvolves(w1, w2, r);
    }
    forall b | b in w0.s.db.batches
      ensures b in w2.s.db.batches && BatchEvolves(w0.s.db.batches[b], w2.s.db.batches[b])
    {
      assert BatchEvolves(w0.s.db.batches[b], w1.s.db.batches[b]);
      assert BatchEvolves(w1.s.db.batches[b], w2.s.db.batches[b]);
    }
  }

  /** Runs a handler may settle: pending ones, and those the reaper failed earlier. */
  ghost predicate Unsettled(w: World, touched: set<RunId>) {
    forall r | r in touched && r in w.s.db.runs ::
      w.s.db.runs[r].status == Pending || (w.s.db.runs[r].status == Failed && r in w.h.reaped)
  }

  lemma HandlerEvolves(w: World, w': World, touched: set<RunId>)
    requires Handles(w, w', touched) == true && Unsettled(w, touched) == true
    ensures Evolves(w, w') == true
  {
    forall r | r in w.h.published && r !in Tokens(w) ensures r !in Tokens(w') {
      assert Tokens(w')[r] <= Tokens(w)[r];
    }
    forall b | b in w.s.db.batches
      ensures b in w'.s.db.batches && BatchEvolves(w.s.db.batches[b], w'.s.db.batches[b])
    {
      assert BatchSettles(w.s.db.batches[b], w'.s.db.batches[b]);
    }
    forall r | r in w.s.db.runs ensures r in w'.s.db.runs && RunEvolves(w, w', r) {}
  }

  lemma PersistEvolves(w: World, res: Result, now: Time)
    requires Inv(w) && res.run in w.results
    ensures Evolves(w, AfterPersist(w, res, now)) == true
  {
    var w' := AfterPersist(w, res, now);
    PersistSettles(w.s, res, now);
    assert Tokens(w') == Tokens(w) - multiset{res.run};
    if Discards(w.s, res) {
      HandlerEvolves(w, w', {});
    } else {
      assert RunOk(w, res.run);
      PersistHandles(w, w', res.run);
    }
  }

  lemma PersistHandles(w: World, w': World, r: RunId)
    requires Inv(w) == true && r in w.results && r in w.s.db.runs && RunOk(w, r) == true && w.s.db.runs[r].status != Cancelled
    requires Settles(w.s.db, w'.s.db, {r}) == true
    requires w' == w.(s := w'.s, results := w.results - multiset{r}, h := w'.h)
    requires w'.h == w.h.(late := w'.h.late, appended := w'.h.appended, committed := w'.h.committed, dropped := w'.h.dropped)
    requires w'.h.late.Keys <= w.s.db.batches.Keys
    ensures Evolves(w, w') == true
  {
    CountedHandles(w, w', r);
    var b := w.s.db.runs[r].batch.value;
    assert IsWritten(w.s.db.runs[r].status) by {
      assert b in w.s.db.batches && Balanced(w.s.db.runs, b, w.s.db.batches[b], GetCount(w.h.late, b));
    }
    HandlerEvolves(w, w', {r});
  }

  lemma PendingOnly(w: World, b: BatchId)
    requires Inv(w) && b in w.s.db.batches
    ensures Unsettled(w, Unfinished(w.s.db.runs, b))
  {
    Split(w.s.db.runs, b, w.s.db.batches[b], GetCount(w.h.late, b));
    forall r | r in Unfinished(w.s.db.runs, b) ensures w.s.db.runs[r].status == Pending {
      assert r in Having(w.s.db.runs, b, Pending);
    }
  }

  lemma ReapEvolves(w: World, b: BatchId, now: Time)
    requires Inv(w) && b in w.s.db.batches && IsOpen(w.s.db.batches[b])
    ensures Evolves(w, AfterReap(w, b, now)) == true
  {
    ReapHandles(w, b, now);
    PendingOnly(w, b);
    HandlerEvolves(w, AfterReap(w, b, now), Unfinished(w.s.db.runs, b));
  }

  lemma TableEvolves(w: World, w': World, touched: set<RunId>)
    requires Inv(w) == true && Settles(w.s.db, w'.s.db, touched) == true && Unsettled(w, touched) == true
    requires w' == w.(s := w'.s, purges := w'.purges)
    ensures Evolves(w, w') == true
  {
    assert Tokens(w') == Tokens(w);
    HandlerEvolves(w, w', touched);
  }

  lemma CancelEvolves(w: World, b: BatchId, now: Time)
    requires Inv(w)
    ensures Evolves(w, AfterCancel(w, b, now)) == true
  {
    var w' := AfterCancel(w, b, now);
    if b in w.s.db.batches {
      CancelSettles(w.s.db, b, now);
      PendingOnly(w, b);
      TableEvolves(w, w', Unfinished(w.s.db.runs, b));
    } else {
      TableEvolves(w, w', {});
    }
  }

  lemma PurgeEvolves(w: World, k: int, now: Time)
    requires Inv(w) && k in w.purges
    ensures Evolves(w, AfterPurge(w, k, now)) == true
  {
    var ids := w.purges[k];
    PurgeSettles(w.s.db, ids, now);
    forall r | r in Doomed(w.s.db.runs, ids) ensures w.s.db.runs[r].status == Pending {
      PurgedRun(w, ids, now, r);
    }
    TableEvolves(w, AfterPurge(w, k, now), Doomed(w.s.db.runs, ids));
  }

  /** Steps that leave the tables alone and publish nothing. */
  lemma QuietEvolves(w: World, w': World)
    requires w'.s.db == w.s.db && w'.h.published == w.h.published && w'.h.reaped == w.h.reaped
    requires forall r :: Tokens(w')[r] <= Tokens(w)[r]
    ensures Evolves(w, w') == true
  {
    forall r | r in w.h.published && r !in Tokens(w) ensures r !in Tokens(w') {
      assert Tokens(w')[r] <= Tokens(w)[r];
    }
    TokensEvolve(w, w');
  }

  /** Steps that leave the tables alone and send no second message. */
  lemma TokensEvolve(w: World, w': World)
    requires w'.s.db == w.s.db && w'.h.reaped == w.h.reaped
    requires forall r | r in w.h.published && r !in Tokens(w) :: r in w'.h.published && r !in Tokens(w')
    ensures Evolves(w, w') == true
  {
  }

  lemma CrashEvolves(w: World, res: Result, how: Crash, now: Time)
    requires MayCrash(w.s, res, how) == true
    ensures Evolves(w, AfterCrash(w, res, how, now)) == true
  {
    assert Crashed(w.s, res, how, now).db == w.s.db;
    QuietEvolves(w, AfterCrash(w, res, how, now));
  }

  lemma FireEvolves(w: World, b: BatchId)
    requires Inv(w) && b in w.txns
    ensures Evolves(w, AfterFire(w, b)) == true
  {
    var w' := AfterFire(w, b);
    assert b !in w.s.db.batches && w.txns[b].runs.Keys !! w.s.db.runs.Keys;
    assert Tokens(w') == Tokens(w);
    RowsAdded(w, w', w.txns[b].runs);
  }

  lemma RowsAdded(w: World, w': World, more: Runs)
    requires w'.h == w.h && Tokens(w') == Tokens(w)
    requires more.Keys !! w.s.db.runs.Keys && w'.s.db.runs == w.s.db.runs + more
    requires forall b | b in w.s.db.batches :: b in w'.s.db.batches && w'.s.db.batches[b] == w.s.db.batches[b]
    ensures Evolves(w, w') == true
  {
  }

  lemma PublishEvolves(w: World, b: BatchId, at: Time)
    requires Inv(w) && b in w.txns && w.txns[b].todo != [] && w.txns[b].todo[0].run in w.txns[b].runs
    ensures Evolves(w, AfterPublish(w, b, at)) == true
  {
    var w', slot := AfterPublish(w, b, at), w.txns[b].todo[0];
    assert TxnOk(b, w.txns[b], w.h);
    assert Tokens(w') == if slot.hasCredential then Tokens(w) + multiset{slot.run} else Tokens(w);
    forall r | r in w.h.published && r !in Tokens(w) ensures r !in Tokens(w') {
      assert r != slot.run;
    }
    TokensEvolve(w, w');
  }

  lemma StepEvolves(w: World, step: Step)
    requires Inv(w) && Enabled(w, step)
    ensures Evolves(w, Apply(w, step)) == true
  {
    if IsMove(step) {
      MoveEvolves(w, step);
    } else if IsRecorders(step) {
      RecorderEvolves(w, step);
    } else {
      SessionEvolves(w, step);
    }
  }

  lemma RecorderEvolves(w: World, step: Step)
    requires Inv(w) && Enabled(w, step) && IsRecorders(step)
    ensures Evolves(w, Recording(w, step)) == true
  {
    match step
    case PersistResult(res, now) => PersistEvolves(w, res, now);
    case ReapBatch(b, now) => ReapEvolves(w, b, now);
    case PersistRaises(res, how, now) => CrashEvolves(w, res, how, now);
    case ReapRaises(b, committed, added, now) => ReapCrashEvolves(w, b, committed, added, now);
    case RestartRecorder => MemoryEvolves(w, AfterRestart(w));
  }

  lemma SessionEvolves(w: World, step: Step)
    requires Inv(w) && Enabled(w, step) && !IsRecorders(step) && !IsMove(step)
    ensures Evolves(w, Serving(w, step)) == true
  {
    match step
    case FirePublish(b, at) => PublishEvolves(w, b, at);
    case FireCommit(b) => FireEvolves(w, b);
    case CancelBatch(b, now) => CancelEvolves(w, b, now);
    case PurgeCancel(k, now) => PurgeEvolves(w, k, now);
    case FireBegin(b, kind, slots, at) => MemoryEvolves(w, Fire(w, b, kind, slots, false, at));
    case FireRefuse(b, kind, slots, at) => MemoryEvolves(w, Fire(w, b, kind, slots, true, at));
    case FireAbort(b) => MemoryEvolves(w, AfterAbort(w, b));
  }

  lemma MoveEvolves(w: World, step: Step)
    requires Enabled(w, step) && IsMove(step)
    ensures Evolves(w, Move(w, step)) == true
  {
    MoveStep(w, step);
    QuietEvolves(w, Move(w, step));
  }

  lemma ReapCrashEvolves(w: World, b: BatchId, committed: bool, added: bool, now: Time)
    requires b in w.s.db.batches
    ensures Evolves(w, AfterReapCrash(w, b, committed, added, now)) == true
  {
    MemoryEvolves(w, AfterReapCrash(w, b, committed, added, now));
  }

  /** Steps that leave tables and messages alone. */
  lemma MemoryEvolves(w: World, w': World)
    requires w'.s.db == w.s.db && w'.h.published == w.h.published && w'.h.reaped == w.h.reaped
    requires w'.jobs == w.jobs && w'.held == w.held && w'.results == w.results
    ensures Evolves(w, w') == true
  {
    assert Tokens(w') == Tokens(w);
    QuietEvolves(w, w');
  }

  lemma NextEvolves(w: World, step: Step, w': World)
    requires Inv(w) && Next(w, step, w')
    ensures Inv(w') == true && Evolves(w, w') == true
  {
    StepInv(w, step);
    StepEvolves(w, step);
  }

  // ----- the recorder's memory -----

  /** Only the recorder touches the repository, the staging list and the history of either. */
  ghost predicate SameFiles(w: World, w': World) {
    && w'.s.repo == w.s.repo && w'.s.staged == w.s.staged && w'.h.late == w.h.late && w'.h.loose == w.h.loose
    && w'.h.appended == w.h.appended && w'.h.committed == w.h.committed && w'.h.dropped == w.h.dropped
  }

  lemma OthersKeepFiles(w: World, step: Step)
    requires Enabled(w, step) && !IsRecorders(step)
    ensures SameFiles(w, Apply(w, step)) == true
  {
    if IsMove(step) {
      MoveStep(w, step);
    } else {
      ServeKeepsFiles(w, step);
    }
  }

  lemma ServeKeepsFiles(w: World, step: Step)
    requires Enabled(w, step) && !IsRecorders(step) && !IsMove(step)
    ensures SameFiles(w, Serving(w, step)) == true
  {
    match step
    case FireBegin(b, kind, slots, at) => Same(w, Fire(w, b, kind, slots, false, at));
    case FireRefuse(b, kind, slots, at) => Same(w, Fire(w, b, kind, slots, true, at));
    case FirePublish(b, at) => Same(w, AfterPublish(w, b, at));
    case FireCommit(b) => Same(w, AfterFire(w, b));
    case FireAbort(b) => Same(w, AfterAbort(w, b));
    case CancelBatch(b, now) => Same(w, AfterCancel(w, b, now));
    case PurgeCancel(k, now) => Same(w, AfterPurge(w, k, now));
  }

  lemma Same(w: World, w': World)
    requires w'.s.repo == w.s.repo && w'.s.staged == w.s.staged
    requires w'.h.late == w.h.late && w'.h.loose == w.h.loose && w'.h.appended == w.h.appended
    requires w'.h.committed == w.h.committed && w'.h.dropped == w.h.dropped
    ensures SameFiles(w, w') == true
  {
  }

  // ----- whole executions -----

  lemma {:induction false} Reachable(ws: seq<World>, steps: seq<Step>, i: nat)
    requires Execution(ws, steps) && i < |ws|
    ensures Inv(ws[i]) == true
  {
    if i == 0 {
      InitInv(ws[0]);
    } else {
      Reachable(ws, steps, i - 1);
      assert StepAt(ws, steps, i - 1);
      NextEvolves(ws[i - 1], steps[i - 1], ws[i]);
    }
  }

  lemma StepsEvolve(ws: seq<World>, steps: seq<Step>, k: nat)
    requires Execution(ws, steps) && k < |steps|
    ensures Evolves(ws[k], ws[k + 1]) == true
  {
    Reachable(ws, steps, k);
    assert StepAt(ws, steps, k);
    NextEvolves(ws[k], steps[k], ws[k + 1]);
  }

  lemma {:induction false} ChainEvolves(ws: seq<World>, i: nat, j: nat)
    requires i <= j < |ws|
    requires forall k | i <= k < j :: Evolves(ws[k], ws[k + 1])
    ensures Evolves(ws[i], ws[j])
    decreases j
  {
    if i == j {
      EvolvesReflexive(ws[i]);
    } else {
      ChainEvolves(ws, i, j - 1);
      EvolvesTransitive(ws[i], ws[j - 1], ws[j - 1 + 1]);
    }
  }

  /** Any later state of an execution has only evolved from an earlier one. */
  lemma Later(ws: seq<World>, steps: seq<Step>, i: nat, j: nat)
    requires Execution(ws, steps) && i <= j < |ws|
    ensures Evolves(ws[i], ws[j])
  {
    forall k | i <= k < j ensures Evolves(ws[k], ws[k + 1]) {
      StepsEvolve(ws, steps, k);
    }
    ChainEvolves(ws, i, j);
  }
}
