/** The inductive invariant of the protocol and its preservation by every step. */
module Safety {
  import opened Basics
  import opened GitStore
  import opened Ledger
  import opened Books
  import opened Staging
  import opened Lifecycle

  /** Each run owns at most one message, and only a published run owns one. */
  ghost predicate TokensOk(w: World) {
    && (forall r :: Tokens(w)[r] <= 1)
    && (forall r :: r in Tokens(w) ==> r in w.h.published)
    && w.h.published <= w.h.issued
  }

  /** A committed run against its message and its batch. */
  ghost predicate RunOk(w: World, r: RunId)
    requires r in w.s.db.runs && w.s.db.runs[r].batch.Some? && w.s.db.runs[r].batch.value in w.s.db.batches
  {
    var run := w.s.db.runs[r];
    var batch := w.s.db.batches[run.batch.value];
    && (r in w.h.published ==> !IsFull(batch))
    && (r in Tokens(w) ==> run.status == Pending || run.status == Cancelled || r in w.h.reaped)
    && (r in Tokens(w) ==> run.status != Success)
    && (run.status == Pending && r in w.h.published ==> r in Tokens(w) || r in w.h.lost)
    && (r in w.h.reaped ==> !IsOpen(batch) && run.status != Pending)
  }

  ghost predicate RunsOk(w: World) {
    && w.s.db.runs.Keys <= w.h.issued && w.s.db.batches.Keys <= w.h.batches
    && w.h.late.Keys <= w.s.db.batches.Keys && (forall r | r in w.h.reaped :: r in w.s.db.runs)
    && DbBalanced(w.s.db, w.h.late)
    && forall r | r in w.s.db.runs :: RunOk(w, r)
  }

  /** An uncommitted dispatch balances by itself and still owns the slots it has not published. */
  ghost predicate TxnOk(b: BatchId, t: Txn, h: History) {
    && b in h.batches && t.runs.Keys <= h.issued
    && (forall r | r in t.runs :: t.runs[r].batch == Some(b))
    && Balanced(t.runs, b, t.batch, 0)
    && (forall i | 0 <= i < |t.todo| :: t.todo[i].run in t.runs
         && t.runs[t.todo[i].run].status == Pending && t.todo[i].run !in h.published)
    && (forall i, j | 0 <= i < j < |t.todo| :: t.todo[i].run != t.todo[j].run)
    && (forall r | r in t.runs && r in h.published :: t.runs[r].status == Pending)
  }

  ghost predicate TxnsOk(w: World) {
    && (forall b | b in w.txns :: TxnOk(b, w.txns[b], w.h))
    && TxnsApart(w.txns, w.s.db)
    && (forall b, r | b in w.txns && r in w.txns[b].runs && r in w.h.published :: r in Tokens(w) || r in w.h.lost)
  }

  ghost predicate TxnsApart(txns: map<BatchId, Txn>, db: Db) {
    && (forall b | b in txns :: b !in db.batches && txns[b].runs.Keys !! db.runs.Keys)
    && (forall b, b' | b in txns && b' in txns && b != b' :: txns[b].runs.Keys !! txns[b'].runs.Keys)
  }

  ghost predicate Inv(w: World) {
    && TokensOk(w) && RunsOk(w) && TxnsOk(w)
    && Covered(w.s, w.h.loose)
    && Conserved(w.s.staged, w.h.appended, w.h.committed, w.h.dropped)
  }

  lemma InitInv(w: World)
    requires Init(w)
    ensures Inv(w)
  {
    forall b ensures ConservedAt(w.s.staged, w.h.appended, w.h.committed, w.h.dropped, b) {}
  }

  // ----- message steps -----

  /** Messages that only move or vanish, every vanished one being recorded as lost. */
  ghost predicate OnlyMessages(w: World, w': World) {
    && w'.s == w.s && w'.txns == w.txns
    && w'.h == w.h.(lost := w'.h.lost) && w.h.lost <= w'.h.lost
    && (forall r :: Tokens(w')[r] <= Tokens(w)[r])
    && (forall r :: r in Tokens(w) && r !in Tokens(w') ==> r in w'.h.lost)
  }

  lemma MessagesInv(w: World, w': World)
    requires Inv(w) && OnlyMessages(w, w')
    ensures Inv(w')
  {
    assert TokensOk(w') by {
      forall r ensures Tokens(w')[r] <= 1 ensures r in Tokens(w') ==> r in w'.h.published {
        assert Tokens(w)[r] <= 1;
      }
    }
    forall r | r in w.s.db.runs ensures RunOk(w', r) {
      assert RunOk(w, r);
      assert Tokens(w')[r] <= Tokens(w)[r];
    }
    forall b | b in w.txns ensures TxnOk(b, w.txns[b], w'.h) {
      assert TxnOk(b, w.txns[b], w.h);
    }
    forall b, r | b in w.txns && r in w.txns[b].runs && r in w.h.published ensures r in Tokens(w') || r in w'.h.lost {
      assert r in Tokens(w) || r in w.h.lost;
    }
  }

  lemma MoveStep(w: World, step: Step)
    requires Enabled(w, step) && IsMove(step)
    ensures OnlyMessages(w, Move(w, step)) == true
  {
    if step.PurgeDelete? {
      DeleteMoves(w, step);
    } else if step.WorkerCrash? || step.LoseJob? || step.LoseResult? {
      LossMoves(w, step);
    } else {
      PassMoves(w, step);
    }
  }

  lemma DeleteMoves(w: World, step: Step)
    requires step.PurgeDelete? && step.k in w.purges
    ensures OnlyMessages(w, Move(w, step)) == true
  {
    Moves(w, Move(w, step), set r | r in w.purges[step.k] && r in w.jobs);
  }

  lemma LossMoves(w: World, step: Step)
    requires step.WorkerCrash? || step.LoseJob? || step.LoseResult?
    ensures OnlyMessages(w, Move(w, step)) == true
  {
    Moves(w, Move(w, step), {step.r});
  }

  lemma PassMoves(w: World, step: Step)
    requires (step.Deliver? && step.r in w.jobs) || (step.WorkerPublish? && step.r in w.held) || step.PurgeSnapshot?
    ensures OnlyMessages(w, Move(w, step)) == true
  {
    if !step.PurgeSnapshot? {
      Moves(w, Move(w, step), {});
    }
  }

  lemma Moves(w: World, w': World, gone: set<RunId>)
    requires w'.s == w.s && w'.txns == w.txns && w'.h == w.h.(lost := w.h.lost + gone)
    requires forall r :: Tokens(w')[r] <= Tokens(w)[r] && (r in gone || Tokens(w)[r] == Tokens(w')[r])
    ensures OnlyMessages(w, w')
  {
  }

  // ----- table transactions -----

  /** A handler that settles some runs, consumes at most their messages and leaves dispatches alone. */
  ghost predicate Handles(w: World, w': World, touched: set<RunId>) {
    && Settles(w.s.db, w'.s.db, touched)
    && w'.txns == w.txns
    && w'.h.issued == w.h.issued && w'.h.batches == w.h.batches && w'.h.published == w.h.published
    && w.h.lost <= w'.h.lost && w.h.reaped <= w'.h.reaped
    && (forall r :: r in w'.h.reaped && r !in w.h.reaped ==> r in touched && r in w.s.db.runs)
    && w'.h.late.Keys <= w.s.db.batches.Keys
    && (forall r :: Tokens(w')[r] <= Tokens(w)[r])
    && (forall r :: r in Tokens(w) && r !in Tokens(w') ==> r in w'.h.lost || (r in touched && r in w.s.db.runs))
  }

  lemma UntouchedRun(w: World, w': World, touched: set<RunId>, r: RunId)
    requires Inv(w) == true && Handles(w, w', touched) == true
    requires r in w.s.db.runs && r !in touched
    requires w'.s.db.runs[r].batch == w.s.db.runs[r].batch && w.s.db.runs[r].batch.Some?
    requires w.s.db.runs[r].batch.value in w'.s.db.batches
    ensures RunOk(w', r)
  {
    assert RunOk(w, r);
    var b := w.s.db.runs[r].batch.value;
    assert BatchSettles(w.s.db.batches[b], w'.s.db.batches[b]);
    assert Tokens(w')[r] <= Tokens(w)[r];
  }

  lemma HandlerInv(w: World, w': World, touched: set<RunId>)
    requires Inv(w) == true && Handles(w, w', touched) == true
    requires DbBalanced(w'.s.db, w'.h.late) == true
    requires forall r | r in touched && r in w'.s.db.runs :: RunOk(w', r) == true
    ensures TokensOk(w') == true && RunsOk(w') == true && TxnsOk(w') == true
  {
    forall r ensures Tokens(w')[r] <= 1 ensures r in Tokens(w') ==> r in w'.h.published {
      assert Tokens(w')[r] <= Tokens(w)[r] <= 1;
    }
    forall r | r in w'.s.db.runs ensures RunOk(w', r) {
      if r !in touched {
        UntouchedRun(w, w', touched, r);
      }
    }
    forall b | b in w.txns ensures TxnOk(b, w.txns[b], w'.h) {
      assert TxnOk(b, w.txns[b], w.h);
    }
    forall b, r | b in w.txns && r in w.txns[b].runs && r in w.h.published ensures r in Tokens(w') || r in w'.h.lost {
      assert r in Tokens(w) || r in w.h.lost;
    }
  }

  /** A run the handler has moved out of pending without reaping it. */
  lemma SettledRun(w: World, w': World, touched: set<RunId>, r: RunId)
    requires Inv(w) == true && Handles(w, w', touched) == true
    requires r in w.s.db.runs && w.s.db.runs[r].status == Pending && r in w'.s.db.runs
    requires w'.s.db.runs[r].batch == w.s.db.runs[r].batch && w.s.db.runs[r].batch.Some?
    requires var b := w.s.db.runs[r].batch.value; b in w'.s.db.batches && !IsFull(w'.s.db.batches[b])
    requires w'.s.db.runs[r].status == Cancelled || (w'.s.db.runs[r].status == Failed && r in w'.h.reaped)
    requires r in w'.h.reaped ==> !IsOpen(w'.s.db.batches[w.s.db.runs[r].batch.value])
    ensures RunOk(w', r)
  {
    assert RunOk(w, r);
  }

  lemma CancelInv(w: World, b: BatchId, now: Time)
    requires Inv(w)
    ensures Inv(AfterCancel(w, b, now))
  {
    var w' := AfterCancel(w, b, now);
    if b in w.s.db.batches && IsOpen(w.s.db.batches[b]) {
      var rs := Unfinished(w.s.db.runs, b);
      CancelSettles(w.s.db, b, now);
      CancelKeeps(w.s.db, b, now, w.h.late);
      Split(w.s.db.runs, b, w.s.db.batches[b], GetCount(w.h.late, b));
      forall r | r in rs ensures w.s.db.runs[r].status == Pending && r !in w.h.reaped {
        assert RunOk(w, r) && r in Having(w.s.db.runs, b, Pending);
      }
      CancelledInv(w, w', rs);
    } else {
      assert w' == w;
    }
  }

  lemma PurgedRun(w: World, ids: set<RunId>, now: Time, r: RunId)
    requires Inv(w) && r in Doomed(w.s.db.runs, ids)
    ensures var db' := Purge(w.s.db, ids, now);
      var b := w.s.db.runs[r].batch.value;
      && w.s.db.runs[r].status == Pending && db'.runs[r].status == Cancelled
      && b in db'.batches && !IsFull(db'.batches[b])
      && r !in w.h.reaped
  {
    var b := w.s.db.runs[r].batch.value;
    assert RunOk(w, r);
    assert r in Unfinished(w.s.db.runs, b);
    Split(w.s.db.runs, b, w.s.db.batches[b], GetCount(w.h.late, b));
    assert r in Having(w.s.db.runs, b, Pending);
    TakenNotFull(w.s.db, ids, now, r);
  }

  /** A batch that loses a run is closed when that fills it. */
  lemma TakenNotFull(db: Db, ids: set<RunId>, now: Time, r: RunId)
    requires r in Doomed(db.runs, ids) && db.runs[r].batch.Some? && db.runs[r].batch.value in db.batches
    ensures var (db', b) := (Purge(db, ids, now), db.runs[r].batch.value);
      db'.runs[r].status == Cancelled && b in db'.batches && !IsFull(db'.batches[b])
  {
    PurgedBatch(db, ids, now, db.runs[r].batch.value);
    assert r in Doomed(db.runs, ids) * Members(db.runs, db.runs[r].batch.value);
  }

  lemma PurgeInv(w: World, k: int, now: Time)
    requires Inv(w) && k in w.purges
    ensures Inv(AfterPurge(w, k, now))
  {
    var ids := w.purges[k];
    var w' := AfterPurge(w, k, now);
    var rs := Doomed(w.s.db.runs, ids);
    PurgeSettles(w.s.db, ids, now);
    PurgeKeeps(w.s.db, ids, now, w.h.late);
    forall r | r in rs
      ensures r in w.s.db.runs && w.s.db.runs[r].status == Pending
      ensures r in w'.s.db.runs && w'.s.db.runs[r].status == Cancelled
      ensures !IsFull(w'.s.db.batches[w.s.db.runs[r].batch.value])
      ensures r !in w.h.reaped
    {
      PurgedRun(w, ids, now, r);
    }
    CancelledInv(w, w', rs);
  }

  /** A handler that cancels pending runs and leaves none of their batches full. */
  lemma CancelledInv(w: World, w': World, rs: set<RunId>)
    requires Inv(w) == true && Settles(w.s.db, w'.s.db, rs) == true && DbBalanced(w'.s.db, w.h.late) == true
    requires w' == w.(s := w'.s, purges := w'.purges)
    requires forall r | r in rs ::
      && r in w.s.db.runs && w.s.db.runs[r].status == Pending && r !in w.h.reaped
      && r in w'.s.db.runs && w'.s.db.runs[r].status == Cancelled
      && w.s.db.runs[r].batch.Some? && w.s.db.runs[r].batch.value in w'.s.db.batches
      && !IsFull(w'.s.db.batches[w.s.db.runs[r].batch.value])
    ensures TokensOk(w') == true && RunsOk(w') == true && TxnsOk(w') == true
  {
    assert Tokens(w') == Tokens(w);
    forall r | r in rs ensures RunOk(w', r) {
      SettledRun(w, w', rs, r);
    }
    HandlerInv(w, w', rs);
  }

  lemma ReapedRun(w: World, b: BatchId, now: Time, r: RunId)
    requires Inv(w) && b in w.s.db.batches && IsOpen(w.s.db.batches[b])
    requires r in Unfinished(w.s.db.runs, b)
    ensures var db' := Reap(w.s, b, now).db;
      && w.s.db.runs[r].status == Pending && w.s.db.runs[r].batch == Some(b)
      && db'.runs[r].status == Failed
  {
    Split(w.s.db.runs, b, w.s.db.batches[b], GetCount(w.h.late, b));
    assert r in Having(w.s.db.runs, b, Pending);
  }

  lemma ReapInv(w: World, b: BatchId, now: Time)
    requires Inv(w) && b in w.s.db.batches && IsOpen(w.s.db.batches[b])
    ensures Inv(AfterReap(w, b, now)) == true
  {
    var w' := AfterReap(w, b, now);
    ReapTables(w, w', b, now);
    PopCommitCovered(w.s, b, w.h.loose);
    PopCommits(w.s.staged, b, w.h.appended, w.h.committed, w.h.dropped);
  }

  lemma ReapTables(w: World, w': World, b: BatchId, now: Time)
    requires Inv(w) == true && b in w.s.db.batches && IsOpen(w.s.db.batches[b])
    requires w' == AfterReap(w, b, now)
    ensures TokensOk(w') == true && RunsOk(w') == true && TxnsOk(w') == true
  {
    var rs := Unfinished(w.s.db.runs, b);
    ReapHandles(w, b, now);
    ReapKeeps(w.s, b, now, w.h.late);
    forall r | r in rs && r in w'.s.db.runs ensures RunOk(w', r) == true {
      ReapedRun(w, b, now, r);
      ReapedOk(w, w', b, now, r);
    }
    HandlerInv(w, w', rs);
  }

  lemma ReapedOk(w: World, w': World, b: BatchId, now: Time, r: RunId)
    requires Inv(w) && b in w.s.db.batches && IsOpen(w.s.db.batches[b]) && r in Unfinished(w.s.db.runs, b)
    requires w' == AfterReap(w, b, now) && Handles(w, w', Unfinished(w.s.db.runs, b))
    requires w.s.db.runs[r].status == Pending && w'.s.db.runs[r].status == Failed
    ensures RunOk(w', r)
  {
    SettledRun(w, w', Unfinished(w.s.db.runs, b), r);
  }

  lemma ReapHandles(w: World, b: BatchId, now: Time)
    requires Inv(w) && b in w.s.db.batches && IsOpen(w.s.db.batches[b])
    ensures Handles(w, AfterReap(w, b, now), Unfinished(w.s.db.runs, b)) == true
  {
    ReapSettles(w.s, b, now);
    assert Tokens(AfterReap(w, b, now)) == Tokens(w);
  }

  lemma ReapCrashInv(w: World, b: BatchId, committed: bool, added: bool, now: Time)
    requires Inv(w) && b in w.s.db.batches && IsOpen(w.s.db.batches[b])
    ensures Inv(AfterReapCrash(w, b, committed, added, now)) == true
  {
    var w' := AfterReapCrash(w, b, committed, added, now);
    NoTableStep(w, w', {});
    if committed {
      PopCommitCovered(w.s, b, w.h.loose);
    } else {
      PopLoseCovered(w.s, b, added, w.h.loose);
    }
    PopCommits(w.s.staged, b, w.h.appended, w.h.committed, w.h.dropped);
    PopDrops(w.s.staged, b, w.h.appended, w.h.committed, w.h.dropped);
  }

  /** A step without any effect on the tables that consumes at most the given messages, as lost ones. */
  lemma NoTableStep(w: World, w': World, gone: set<RunId>)
    requires Inv(w) == true
    requires w'.s.db == w.s.db && w'.txns == w.txns
    requires w'.h == w.h.(lost := w.h.lost + gone, loose := w'.h.loose, appended := w'.h.appended, committed := w'.h.committed, dropped := w'.h.dropped)
    requires Tokens(w') == Tokens(w) - multiset(gone)
    ensures TokensOk(w') == true && RunsOk(w') == true && TxnsOk(w') == true
  {
    assert Settles(w.s.db, w'.s.db, {});
    HandlerInv(w, w', {});
  }

  lemma CrashInv(w: World, res: Result, how: Crash, now: Time)
    requires Inv(w) && res.run in w.results && MayCrash(w.s, res, how) == true
    ensures Inv(AfterCrash(w, res, how, now)) == true
  {
    CrashTables(w, res, how, now);
    CrashedCovered(w.s, res, how, now, w.h.loose);
    CrashConserves(w, res, how, now);
  }

  lemma CrashTables(w: World, res: Result, how: Crash, now: Time)
    requires Inv(w) == true && res.run in w.results && MayCrash(w.s, res, how) == true
    ensures var w' := AfterCrash(w, res, how, now); TokensOk(w') == true && RunsOk(w') == true && TxnsOk(w') == true
  {
    var w' := AfterCrash(w, res, how, now);
    CrashTouches(w, res, how, now);
    assert Tokens(w') == Tokens(w) - multiset{res.run};
    NoTableStep(w, w', {res.run});
  }

  /** A handler that raises leaves the tables as they were; its message is gone. */
  lemma CrashTouches(w: World, res: Result, how: Crash, now: Time)
    requires MayCrash(w.s, res, how)
    ensures var w' := AfterCrash(w, res, how, now);
      && w'.s.db == w.s.db && w'.txns == w.txns
      && w'.jobs == w.jobs && w'.held == w.held && w'.results == w.results - multiset{res.run}
      && w'.h == w.h.(lost := w.h.lost + {res.run}, loose := w'.h.loose,
           appended := w'.h.appended, committed := w'.h.committed, dropped := w'.h.dropped)
  {
  }

  lemma CrashConserves(w: World, res: Result, how: Crash, now: Time)
    requires Conserved(w.s.staged, w.h.appended, w.h.committed, w.h.dropped)
    requires MayCrash(w.s, res, how)
    ensures var w' := AfterCrash(w, res, how, now); Conserved(w'.s.staged, w'.h.appended, w'.h.committed, w'.h.dropped)
  {
    if how.AfterStage? || how.DuringCommit? || how.AfterCommit? {
      RecordedConserves(w.s, res, w.h.appended, w.h.committed, w.h.dropped);
      var b := BatchIdOf(w, res.run);
      if how.DuringCommit? {
        PopDrops(Recorded(w.s, res).staged, b, Plus(w.h.appended, b, AppendedBy(w.s, res)), w.h.committed, w.h.dropped);
      } else if how.AfterCommit? {
        PopCommits(Recorded(w.s, res).staged, b, Plus(w.h.appended, b, AppendedBy(w.s, res)), w.h.committed, w.h.dropped);
      }
    }
  }

  lemma RestartInv(w: World)
    requires Inv(w)
    ensures Inv(AfterRestart(w)) == true
  {
    var w' := AfterRestart(w);
    assert Tokens(w') == Tokens(w);
    NoTableStep(w, w', {});
    RestartConserves(w.s.staged, w.h.appended, w.h.committed, w.h.dropped, w'.h.dropped);
  }

  lemma RestartConserves(staged: map<BatchId, seq<Path>>, appended: Tally, committed: Tally, dropped: Tally, dropped': Tally)
    requires Conserved(staged, appended, committed, dropped)
    requires forall b :: Times(dropped', b) == Times(dropped, b) + multiset(GetList(staged, b))
    ensures Conserved(map[], appended, committed, dropped') == true
  {
    forall b ensures ConservedAt(map[], appended, committed, dropped', b) {
      assert ConservedAt(staged, appended, committed, dropped, b);
    }
  }

  lemma PersistInv(w: World, res: Result, now: Time)
    requires Inv(w) && res.run in w.results
    ensures Inv(AfterPersist(w, res, now)) == true
  {
    var w' := AfterPersist(w, res, now);
    assert Tokens(w') == Tokens(w) - multiset{res.run};
    if Discards(w.s, res) {
      NoTableStep(w, w', {res.run});
    } else {
      assert RunOk(w, res.run);
      assert BatchOf(w.s.db, w.s.db.runs[res.run]) == w.s.db.runs[res.run].batch;
      PersistTables(w, w', res, now);
      PersistCovered(w.s, res, now, w.h.loose);
      PersistConserves(w, res, now);
    }
  }

  lemma PersistTables(w: World, w': World, res: Result, now: Time)
    requires Inv(w) == true && res.run in w.results && !Discards(w.s, res)
    requires w' == AfterPersist(w, res, now)
    ensures TokensOk(w') == true && RunsOk(w') == true && TxnsOk(w') == true
  {
    assert RunOk(w, res.run);
    PersistSettles(w.s, res, now);
    PersistKeeps(w.s, res, now, w.h.late);
    CountedInv(w, w', res.run);
  }

  /** A handler that consumes one run's message and gives the run its result. */
  lemma CountedInv(w: World, w': World, r: RunId)
    requires Inv(w) == true && r in w.results && r in w.s.db.runs && RunOk(w, r) == true
    requires Settles(w.s.db, w'.s.db, {r}) == true && DbBalanced(w'.s.db, w'.h.late) == true
    requires w'.s.db.runs[r].status == Success || w'.s.db.runs[r].status == Failed
    requires w' == w.(s := w'.s, results := w.results - multiset{r}, h := w'.h)
    requires w'.h == w.h.(late := w'.h.late, appended := w'.h.appended, committed := w'.h.committed, dropped := w'.h.dropped)
    requires w'.h.late.Keys <= w.s.db.batches.Keys
    ensures TokensOk(w') == true && RunsOk(w') == true && TxnsOk(w') == true
  {
    CountedHandles(w, w', r);
    CountedRun(w, w', r);
    HandlerInv(w, w', {r});
  }

  lemma CountedHandles(w: World, w': World, r: RunId)
    requires r in w.results && r in w.s.db.runs && Settles(w.s.db, w'.s.db, {r}) == true
    requires w' == w.(s := w'.s, results := w.results - multiset{r}, h := w'.h)
    requires w'.h == w.h.(late := w'.h.late, appended := w'.h.appended, committed := w'.h.committed, dropped := w'.h.dropped)
    requires w'.h.late.Keys <= w.s.db.batches.Keys
    ensures Handles(w, w', {r}) == true
  {
    assert Tokens(w') == Tokens(w) - multiset{r};
  }

  lemma CountedRun(w: World, w': World, r: RunId)
    requires Inv(w) == true && r in w.results && r in w.s.db.runs && RunOk(w, r) == true
    requires Settles(w.s.db, w'.s.db, {r}) == true
    requires w'.s.db.runs[r].status == Success || w'.s.db.runs[r].status == Failed
    requires w'.jobs == w.jobs && w'.held == w.held && w'.results == w.results - multiset{r}
    requires w'.h.published == w.h.published && w'.h.reaped == w.h.reaped
    ensures RunOk(w', r) == true
  {
    assert Tokens(w)[r] == 1;
    assert Tokens(w') == Tokens(w) - multiset{r};
    var b := w.s.db.runs[r].batch.value;
    assert b in w.s.db.batches && BatchSettles(w.s.db.batches[b], w'.s.db.batches[b]);
  }

  lemma PersistConserves(w: World, res: Result, now: Time)
    requires Conserved(w.s.staged, w.h.appended, w.h.committed, w.h.dropped)
    requires !Discards(w.s, res) && BatchOf(w.s.db, w.s.db.runs[res.run]).Some?
    ensures var w' := AfterPersist(w, res, now); Conserved(w'.s.staged, w'.h.appended, w'.h.committed, w'.h.dropped)
  {
    var b := BatchIdOf(w, res.run);
    RecordedConserves(w.s, res, w.h.appended, w.h.committed, w.h.dropped);
    if Closes(w.s, res) {
      PopCommits(Recorded(w.s, res).staged, b, Plus(w.h.appended, b, AppendedBy(w.s, res)), w.h.committed, w.h.dropped);
    }
  }

  // ----- dispatch -----

  lemma SlotRunsSize(slots: seq<Slot>)
    requires forall i, j :: 0 <= i < j < |slots| ==> slots[i].run != slots[j].run
    ensures |SlotRuns(slots)| == |slots|
  {
    var ids := seq(|slots|, i requires 0 <= i < |slots| => slots[i].run);
    DistinctSize(ids);
    forall r ensures r in Elements(ids) <==> r in SlotRuns(slots) {
      if r in SlotRuns(slots) {
        var i :| 0 <= i < |slots| && slots[i].run == r;
        assert ids[i] == r;
      }
    }
    assert Elements(ids) == SlotRuns(slots);
  }

  lemma NewBalanced(b: BatchId, kind: Kind, slots: seq<Slot>, refused: bool, at: Time)
    requires forall i, j :: 0 <= i < j < |slots| ==> slots[i].run != slots[j].run
    requires refused ==> slots != []
    ensures Balanced(NewRuns(b, slots, refused, at), b, NewBatch(kind, slots, refused, at), 0)
  {
    var runs := NewRuns(b, slots, refused, at);
    SlotRunsSize(slots);
    forall r
      ensures r in Members(runs, b) <==> r in SlotRuns(slots)
      ensures r in Having(runs, b, Failed) <==> refused && r in SlotRuns(slots)
      ensures r in Having(runs, b, Pending) <==> !refused && r in SlotRuns(slots)
      ensures r !in Having(runs, b, Success) && r !in Having(runs, b, Cancelled)
    {}
    assert Members(runs, b) == SlotRuns(slots);
    assert Having(runs, b, Failed) == if refused then SlotRuns(slots) else {};
    assert Having(runs, b, Success) == {} && Having(runs, b, Cancelled) == {};
  }

  lemma FireInv(w: World, b: BatchId, kind: Kind, slots: seq<Slot>, refused: bool, at: Time)
    requires Inv(w) && b !in w.h.batches && FreshSlots(slots, w.h.issued) && (refused ==> slots != [])
    ensures Inv(Fire(w, b, kind, slots, refused, at))
  {
    var t, ids := OpenTxn(b, kind, slots, refused, at), SlotRuns(slots);
    NewBalanced(b, kind, slots, refused, at);
    forall i | 0 <= i < |slots| ensures slots[i].run in ids {}
    forall r | r in ids ensures r !in w.h.published {
      assert r !in w.h.issued;
    }
    AddTxn(w, b, t, ids);
  }

  /** Opening a dispatch over fresh ids. */
  lemma AddTxn(w: World, b: BatchId, t: Txn, ids: set<RunId>)
    requires Inv(w) && b !in w.h.batches && ids !! w.h.issued
    requires t.runs.Keys == ids
    requires TxnOk(b, t, w.h.(batches := w.h.batches + {b}, issued := w.h.issued + ids))
    ensures Inv(w.(txns := w.txns[b := t], h := w.h.(batches := w.h.batches + {b}, issued := w.h.issued + ids)))
  {
    var h' := w.h.(batches := w.h.batches + {b}, issued := w.h.issued + ids);
    var w' := w.(txns := w.txns[b := t], h := h');
    assert Tokens(w') == Tokens(w);
    forall r | r in w.s.db.runs ensures RunOk(w', r) {
      assert RunOk(w, r);
    }
    AddTxnApart(w, b, t, ids);
    AddTxnTxns(w, w', b, t);
  }

  lemma AddTxnTxns(w: World, w': World, b: BatchId, t: Txn)
    requires TxnsOk(w) && b !in w.txns && TxnOk(b, t, w'.h)
    requires w'.txns == w.txns[b := t] && w'.s == w.s && Tokens(w') == Tokens(w)
    requires w'.h == w.h.(batches := w'.h.batches, issued := w'.h.issued)
    requires w.h.batches <= w'.h.batches && w.h.issued <= w'.h.issued
    requires b !in w.s.db.batches && t.runs.Keys !! w.s.db.runs.Keys
    requires forall b' | b' in w.txns :: w.txns[b'].runs.Keys !! t.runs.Keys
    requires forall r | r in t.runs :: r !in w.h.published
    ensures TxnsOk(w')
  {
    forall b' | b' in w'.txns ensures TxnOk(b', w'.txns[b'], w'.h) == true {
      if b' != b {
        assert TxnOk(b', w.txns[b'], w.h);
        OlderTxnOk(b', w.txns[b'], w.h, w'.h);
      }
    }
    AddedApart(w.txns, w.s.db, b, t);
    forall b', r | b' in w'.txns && r in w'.txns[b'].runs && r in w.h.published ensures r in Tokens(w') || r in w.h.lost {
      assert b' != b && r in w.txns[b'].runs;
    }
  }

  /** More ids are allocated meanwhile. */
  lemma OlderTxnOk(b: BatchId, t: Txn, h: History, h': History)
    requires TxnOk(b, t, h) && h'.published == h.published && h.batches <= h'.batches && h.issued <= h'.issued
    ensures TxnOk(b, t, h') == true
  {
  }

  lemma AddedApart(txns: map<BatchId, Txn>, db: Db, b: BatchId, t: Txn)
    requires TxnsApart(txns, db) && b !in db.batches && t.runs.Keys !! db.runs.Keys
    requires forall b' | b' in txns :: txns[b'].runs.Keys !! t.runs.Keys
    ensures TxnsApart(txns[b := t], db) == true
  {
  }

  lemma AddTxnApart(w: World, b: BatchId, t: Txn, ids: set<RunId>)
    requires Inv(w) && b !in w.h.batches && ids !! w.h.issued && t.runs.Keys == ids
    ensures b !in w.txns && b !in w.s.db.batches && t.runs.Keys !! w.s.db.runs.Keys
    ensures forall b' | b' in w.txns :: w.txns[b'].runs.Keys !! t.runs.Keys
    ensures forall r | r in t.runs :: r !in w.h.published
  {
    assert b in w.txns ==> TxnOk(b, w.txns[b], w.h);
    forall b' | b' in w.txns ensures w.txns[b'].runs.Keys !! t.runs.Keys {
      assert TxnOk(b', w.txns[b'], w.h);
    }
  }

  lemma PublishTxn(b: BatchId, t: Txn, at: Time, h: History, h': History)
    requires TxnOk(b, t, h) && t.todo != []
    requires h' == if t.todo[0].hasCredential then h.(published := h.published + {t.todo[0].run}) else h
    ensures TxnOk(b, PublishNext(t, at), h')
  {
    var slot := t.todo[0];
    if !slot.hasCredential {
      assert {slot.run} * Members(t.runs, b) == {slot.run};
      SettleBalanced(t.runs, {slot.run}, Failed, at, b, t.batch, 0);
    }
  }

  lemma PublishInv(w: World, b: BatchId, at: Time)
    requires Inv(w) && b in w.txns && w.txns[b].todo != [] && w.txns[b].todo[0].run in w.txns[b].runs
    ensures Inv(AfterPublish(w, b, at))
  {
    var w' := AfterPublish(w, b, at);
    var slot := w.txns[b].todo[0];
    PublishTxn(b, w.txns[b], at, w.h, w'.h);
    if slot.hasCredential {
      assert Tokens(w') == Tokens(w) + multiset{slot.run};
      assert slot.run !in Tokens(w);
    }
    PublishedElsewhere(w, w', b);
  }

  /** The next slot of a dispatch was published, or failed for want of a credential. */
  ghost predicate Publishes(w: World, w': World, b: BatchId)
    requires b in w.txns && w.txns[b].todo != []
  {
    var r := w.txns[b].todo[0].run;
    && w'.s == w.s && b in w'.txns && w'.txns == w.txns[b := w'.txns[b]]
    && w'.txns[b].runs.Keys == w.txns[b].runs.Keys
    && TxnOk(b, w'.txns[b], w'.h)
    && if w'.h == w.h then Tokens(w') == Tokens(w)
       else
         && w'.h == w.h.(published := w.h.published + {r})
         && Tokens(w') == Tokens(w) + multiset{r} && r !in Tokens(w)
  }

  lemma PublishedElsewhere(w: World, w': World, b: BatchId)
    requires Inv(w) && b in w.txns && w.txns[b].todo != [] && Publishes(w, w', b)
    ensures Inv(w')
  {
    PublishedTxns(w, w', b);
    PublishedRuns(w, w', b);
  }

  lemma PublishedTxns(w: World, w': World, b: BatchId)
    requires Inv(w) && b in w.txns && w.txns[b].todo != [] && Publishes(w, w', b)
    ensures TxnsOk(w')
  {
    var r := w.txns[b].todo[0].run;
    assert r in w.txns[b].runs;
    forall b' | b' in w'.txns ensures TxnOk(b', w'.txns[b'], w'.h) == true {
      if b' != b {
        assert TxnOk(b', w.txns[b'], w.h) && r !in w.txns[b'].runs;
        OtherTxnOk(b', w.txns[b'], w.h, w'.h, r);
      }
    }
    SameKeysApart(w.txns, w'.txns, w.s.db);
  }

  /** A message is sent for a run of another dispatch. */
  lemma OtherTxnOk(b: BatchId, t: Txn, h: History, h': History, r: RunId)
    requires TxnOk(b, t, h) && r !in t.runs && (h' == h || h' == h.(published := h.published + {r}))
    ensures TxnOk(b, t, h') == true
  {
  }

  lemma SameKeysApart(txns: map<BatchId, Txn>, txns': map<BatchId, Txn>, db: Db)
    requires TxnsApart(txns, db) && txns'.Keys == txns.Keys
    requires forall b | b in txns :: txns'[b].runs.Keys == txns[b].runs.Keys
    ensures TxnsApart(txns', db) == true
  {
  }

  lemma PublishedRuns(w: World, w': World, b: BatchId)
    requires Inv(w) && b in w.txns && w.txns[b].todo != [] && Publishes(w, w', b)
    ensures RunsOk(w')
  {
    var r := w.txns[b].todo[0].run;
    assert r in w.txns[b].runs;
    forall x | x in w.s.db.runs ensures RunOk(w', x) {
      assert RunOk(w, x) && x != r;
    }
  }

  lemma AbortInv(w: World, b: BatchId)
    requires Inv(w) && b in w.txns
    ensures Inv(AfterAbort(w, b))
  {
    var w' := AfterAbort(w, b);
    forall r | r in w.s.db.runs ensures RunOk(w', r) {
      assert RunOk(w, r);
    }
  }

  /** Committing a dispatch: two disjoint tables, each balanced, balance together. */
  lemma MergeBalanced(runs: Runs, more: Runs, b: BatchId, batch: Batch, late: nat)
    requires runs.Keys !! more.Keys
    requires || (Balanced(runs, b, batch, late) == true && Members(more, b) == {})
             || (Members(runs, b) == {} && Balanced(more, b, batch, late) == true)
    ensures Balanced(runs + more, b, batch, late) == true
  {
    var base := if Members(more, b) == {} && Balanced(runs, b, batch, late) then runs else more;
    var all := runs + more;
    forall r ensures r in Members(all, b) <==> r in Members(base, b) {
      assert r in Members(all, b) <==> r in Members(runs, b) || r in Members(more, b);
    }
    forall r | r in base && base[r].batch == Some(b) ensures r in all && all[r] == base[r] {
      assert r in Members(base, b);
    }
    BalancedFrame(base, all, b, batch, late);
  }

  lemma CommitInv(w: World, b: BatchId)
    requires Inv(w) && b in w.txns
    ensures Inv(AfterFire(w, b))
  {
    var w', t := AfterFire(w, b), w.txns[b];
    var db, db' := w.s.db, w'.s.db;
    assert TxnOk(b, t, w.h);
    CommitBalanced(db, b, t, w.h.late, w.h);
    forall r | r in db'.runs ensures RunOk(w', r) {
      if r in t.runs {
        Split(t.runs, b, t.batch, 0);
        assert r in w.h.published ==> r in Having(t.runs, b, Pending);
        assert r !in w.h.reaped;
      } else {
        assert RunOk(w, r) && db.runs[r].batch != Some(b);
      }
    }
    assert Covered(w'.s, w'.h.loose);
  }

  lemma CommitBalanced(db: Db, b: BatchId, t: Txn, late: map<BatchId, nat>, h: History)
    requires DbBalanced(db, late) == true && TxnOk(b, t, h) == true
    requires b !in db.batches && t.runs.Keys !! db.runs.Keys && late.Keys <= db.batches.Keys
    ensures DbBalanced(db.(runs := db.runs + t.runs, batches := db.batches[b := t.batch]), late) == true
  {
    var db' := db.(runs := db.runs + t.runs, batches := db.batches[b := t.batch]);
    forall b' | b' in db'.batches ensures Balanced(db'.runs, b', db'.batches[b'], GetCount(late, b')) == true {
      if b' == b {
        NoMembers(db.runs, b);
        MergeBalanced(db.runs, t.runs, b, t.batch, 0);
      } else {
        CommitOther(db, b, t, h, b', GetCount(late, b'));
      }
    }
    forall r | r in db'.runs ensures db'.runs[r].batch.Some? && db'.runs[r].batch.value in db'.batches {
      assert r in t.runs ==> t.runs[r].batch == Some(b);
    }
  }

  lemma CommitOther(db: Db, b: BatchId, t: Txn, h: History, b': BatchId, late: nat)
    requires TxnOk(b, t, h) == true && t.runs.Keys !! db.runs.Keys
    requires b' != b && b' in db.batches && Balanced(db.runs, b', db.batches[b'], late) == true
    ensures Balanced(db.runs + t.runs, b', db.batches[b'], late) == true
  {
    NoMembers(t.runs, b');
    MergeBalanced(db.runs, t.runs, b', db.batches[b'], late);
  }

  lemma NoMembers(runs: Runs, b: BatchId)
    requires forall r | r in runs :: runs[r].batch != Some(b)
    ensures Members(runs, b) == {}
  {
    forall r ensures r !in Members(runs, b) {}
  }

  // ----- every step -----

  /** The invariant is inductive. */
  lemma StepInv(w: World, step: Step)
    requires Inv(w) && Enabled(w, step)
    ensures Inv(Apply(w, step)) == true
  {
    if IsMove(step) {
      MoveStep(w, step);
      MessagesInv(w, Move(w, step));
    } else if IsRecorders(step) {
      RecorderInv(w, step);
    } else {
      SessionInv(w, step);
    }
  }

  lemma RecorderInv(w: World, step: Step)
    requires Inv(w) && Enabled(w, step) && IsRecorders(step)
    ensures Inv(Recording(w, step)) == true
  {
    match step
    case PersistResult(res, now) => PersistInv(w, res, now);
    case PersistRaises(res, how, now) => CrashInv(w, res, how, now);
    case ReapBatch(b, now) => ReapInv(w, b, now);
    case ReapRaises(b, committed, added, now) => ReapCrashInv(w, b, committed, added, now);
    case RestartRecorder => RestartInv(w);
  }

  lemma SessionInv(w: World, step: Step)
    requires Inv(w) && Enabled(w, step) && !IsRecorders(step) && !IsMove(step)
    ensures Inv(Serving(w, step)) == true
  {
    match step
    case FireBegin(b, kind, slots, at) => FireInv(w, b, kind, slots, false, at);
    case FireRefuse(b, kind, slots, at) => FireInv(w, b, kind, slots, true, at);
    case FirePublish(b, at) => PublishInv(w, b, at);
    case FireCommit(b) => CommitInv(w, b);
    case FireAbort(b) => AbortInv(w, b);
    case CancelBatch(b, now) => CancelInv(w, b, now);
    case PurgeCancel(k, now) => PurgeInv(w, k, now);
  }
}
