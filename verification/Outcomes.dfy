/** What each handler leaves in the rows it touches, column by column. */
module Outcomes {
  import opened Basics
  import opened GitStore
  import opened Ledger
  import opened Books
  import opened Staging

  /** Results for unknown or cancelled runs change nothing at all. */
  lemma DiscardedResult(s: State, res: Result, now: Time)
    requires res.run !in s.db.runs || s.db.runs[res.run].status == Cancelled
    ensures Persist(s, res, now) == s
  {
  }

  /** Any other result decides its run: status by success, the result's time when it has one, and for a capture the
      digest of the text. */
  ghost predicate Decided(run: Run, run': Run, res: Result) {
    && run'.status == (if res.success then Success else Failed)
    && run'.finishedAt == (if res.finishedAt.Some? then res.finishedAt else run.finishedAt)
    && run'.payload == (if res.success && res.kind == Backup && res.configText.Some? then Some(Sha256(res.configText.value))
                        else run.payload)
    && run'.batch == run.batch && run'.device == run.device
  }

  /** And it is counted; the batch closes when it was open and all its runs are counted by then, at the result's time
      or, for want of one, at the recorder's. */
  ghost predicate CountedIn(batch: Batch, batch': Batch, res: Result, now: Time) {
    var done := batch.finishedAt.None? && batch.succeeded + batch.failed + 1 >= batch.total;
    && batch'.succeeded == batch.succeeded + (if res.success then 1 else 0)
    && batch'.failed == batch.failed + (if res.success then 0 else 1)
    && batch'.finishedAt == (if !done then batch.finishedAt else if res.finishedAt.Some? then res.finishedAt else Some(now))
    && batch'.kind == batch.kind && batch'.total == batch.total && batch'.createdAt == batch.createdAt
    && (!done ==> batch'.commitSha == batch.commitSha)
  }

  /** A run that other runs' results pass by, but for the sha its batch may get. */
  ghost predicate Spared(run: Run, run': Run) {
    run' == run.(commitSha := run'.commitSha)
  }

  lemma PersistedRows(s: State, res: Result, now: Time, b: BatchId)
    requires res.run in s.db.runs && s.db.runs[res.run].status != Cancelled
    requires s.db.runs[res.run].batch == Some(b) && b in s.db.batches
    ensures var (db, db') := (s.db, Persist(s, res, now).db);
      && db'.runs.Keys == db.runs.Keys && db'.batches.Keys == db.batches.Keys
      && Decided(db.runs[res.run], db'.runs[res.run], res)
      && (forall r | r in db.runs && r != res.run :: Spared(db.runs[r], db'.runs[r]))
      && CountedIn(db.batches[b], db'.batches[b], res, now)
      && (forall b' | b' in db.batches && b' != b :: db'.batches[b'] == db.batches[b'])
  {
    RecordedColumns(s, res, b);
    var s2 := Recorded(s, res);
    if IsFull(s2.db.batches[b]) {
      CloseColumns(s2, b, res.finishedAt.GetOr(now), now);
    }
  }

  lemma RecordedColumns(s: State, res: Result, b: BatchId)
    requires !Discards(s, res) && s.db.runs[res.run].batch == Some(b) && b in s.db.batches
    ensures var (db, db') := (s.db, Recorded(s, res).db);
      && Decided(db.runs[res.run], db'.runs[res.run], res)
      && db'.runs == db.runs[res.run := db'.runs[res.run]]
      && db'.batches == db.batches[b := if res.success then db.batches[b].(succeeded := db.batches[b].succeeded + 1)
                                        else db.batches[b].(failed := db.batches[b].failed + 1)]
  {
    var s1 := Count(s, res);
    if Captures(res) {
      CaptureTouches(s1, res);
      CapturePayload(s1, res);
    }
  }

  lemma CapturePayload(s: State, res: Result)
    requires Captures(res) && res.run in s.db.runs
    ensures var (run, run') := (s.db.runs[res.run], Capture(s, res).db.runs[res.run]);
      run' == run.(payload := Some(Sha256(res.configText.value)), commitSha := run'.commitSha)
  {
  }

  lemma CloseColumns(s: State, b: BatchId, at: Time, now: Time)
    requires b in s.db.batches
    ensures var (db, db') := (s.db, Close(s, b, at, now).db);
      && db'.runs.Keys == db.runs.Keys && (forall r | r in db.runs :: Spared(db.runs[r], db'.runs[r]))
      && db'.batches == db.batches[b := db.batches[b].(finishedAt := Some(at), commitSha := db'.batches[b].commitSha)]
  {
  }

  /** A run settled by a handler, at its time. */
  ghost predicate SettledAs(run: Run, run': Run, st: Status, now: Time) {
    run' == run.(status := st, finishedAt := Some(now))
  }

  /** Cancelling an open batch: its unfinished runs, and no other, become cancelled and are counted as failed; with
      none pending any more it is finished, all at the same time. */
  lemma CancelledRows(db: Db, b: BatchId, now: Time)
    requires b in db.batches && db.batches[b].finishedAt.None? && Balanced(db.runs, b, db.batches[b], 0)
    ensures var db' := Cancel(db, b, now);
      && db'.runs.Keys == db.runs.Keys && db' == db.(runs := db'.runs, batches := db'.batches)
      && (forall r | r in db.runs :: if db.runs[r].batch == Some(b) && db.runs[r].status == Pending
            then SettledAs(db.runs[r], db'.runs[r], Cancelled, now) else db'.runs[r] == db.runs[r])
      && db'.batches == db.batches[b := db.batches[b].(
           failed := db.batches[b].failed + |Having(db.runs, b, Pending)|, finishedAt := Some(now))]
  {
    UnfinishedIsPending(db.runs, b, db.batches[b], 0);
    CancelledColumns(db.runs, b, now);
    CancelFills(db.runs, b, db.batches[b]);
  }

  lemma CancelledColumns(runs: Runs, b: BatchId, now: Time)
    requires Unfinished(runs, b) == Having(runs, b, Pending)
    ensures var runs' := Settle(runs, Unfinished(runs, b), Cancelled, now);
      && runs'.Keys == runs.Keys
      && forall r | r in runs :: if runs[r].batch == Some(b) && runs[r].status == Pending
           then SettledAs(runs[r], runs'[r], Cancelled, now) else runs'[r] == runs[r]
  {
    forall r | r in runs ensures r in Unfinished(runs, b) <==> runs[r].batch == Some(b) && runs[r].status == Pending {
      assert r in Unfinished(runs, b) <==> r in Having(runs, b, Pending);
    }
  }

  /** With every pending run counted as failed the batch is full. */
  lemma CancelFills(runs: Runs, b: BatchId, batch: Batch)
    requires batch.finishedAt.None? && Balanced(runs, b, batch, 0) == true
    ensures IsFull(batch.(failed := batch.failed + |Having(runs, b, Pending)|))
  {
    Split(runs, b, batch, 0);
  }

  /** A batch that is finished or unknown is not touched by a cancel. */
  lemma CancelledNothing(db: Db, b: BatchId, now: Time)
    requires b !in db.batches || db.batches[b].finishedAt.Some?
    ensures Cancel(db, b, now) == db
  {
  }

  /** In a balanced batch the unfinished runs are the pending ones. */
  lemma UnfinishedIsPending(runs: Runs, b: BatchId, batch: Batch, late: nat)
    requires Balanced(runs, b, batch, late) == true
    ensures Unfinished(runs, b) == Having(runs, b, Pending)
    ensures forall r | r in runs && runs[r].batch == Some(b) :: IsUnfinished(runs[r]) <==> runs[r].status == Pending
  {
    StatusUnion(runs, b);
  }

  /** A reaped run: with the sha of the commit, if there is one, and failed if it was pending. */
  ghost predicate ReapedAs(run: Run, run': Run, sha: Option<Sha>, now: Time) {
    run' == if run.status == Pending then run.(status := Failed, finishedAt := Some(now), commitSha := sha)
            else run.(commitSha := sha)
  }

  /** Reaping: the unfinished runs fail and are counted, the batch is finished, and the staging list is handed over. */
  lemma ReapedRows(s: State, b: BatchId, now: Time)
    requires b in s.db.batches && s.db.batches[b].finishedAt.None? && Balanced(s.db.runs, b, s.db.batches[b], 0)
    ensures var (s', sha) := (Reap(s, b, now), Commit(s.repo, GetList(s.staged, b)).1);
      && s'.db.runs.Keys == s.db.runs.Keys && s'.db == s.db.(runs := s'.db.runs, batches := s'.db.batches)
      && (forall r | r in s.db.runs && s.db.runs[r].batch != Some(b) :: s'.db.runs[r] == s.db.runs[r])
      && (forall r | r in s.db.runs && s.db.runs[r].batch == Some(b) :: ReapedAs(s.db.runs[r], s'.db.runs[r], sha, now))
      && s'.db.batches == s.db.batches[b := s.db.batches[b].(
           failed := s.db.batches[b].failed + |Having(s.db.runs, b, Pending)|, finishedAt := Some(now), commitSha := sha)]
      && s'.repo == Commit(s.repo, GetList(s.staged, b)).0 && s'.staged == s.staged - {b}
  {
    UnfinishedIsPending(s.db.runs, b, s.db.batches[b], 0);
    ReapedColumns(s.db.runs, b, s.db.batches[b], Commit(s.repo, GetList(s.staged, b)).1, now);
  }

  lemma ReapedColumns(runs: Runs, b: BatchId, batch: Batch, sha: Option<Sha>, now: Time)
    requires batch.finishedAt.None? && Balanced(runs, b, batch, 0)
    ensures var settled := Settle(runs, Unfinished(runs, b), Failed, now);
      var runs' := if sha.Some? then Stamp(settled, b, sha.value, true) else settled;
      && runs'.Keys == runs.Keys
      && (forall r | r in runs && runs[r].batch != Some(b) :: runs'[r] == runs[r])
      && (forall r | r in runs && runs[r].batch == Some(b) :: ReapedAs(runs[r], runs'[r], sha, now))
  {
    UnfinishedIsPending(runs, b, batch, 0);
    forall r | r in runs && runs[r].batch == Some(b)
      ensures runs[r].commitSha == None && (r in Unfinished(runs, b) <==> runs[r].status == Pending)
    {
    }
  }

  /** Purging: the listed runs that are still pending become cancelled and are counted; a batch that loses some is
      finished when none is left pending. */
  lemma PurgedRows(db: Db, ids: set<RunId>, now: Time, b: BatchId, late: nat)
    requires b in db.batches && Balanced(db.runs, b, db.batches[b], late)
    ensures var (db', taken) := (Purge(db, ids, now), Having(db.runs, b, Pending) * ids);
      && db'.runs.Keys == db.runs.Keys && b in db'.batches && db' == db.(runs := db'.runs, batches := db'.batches)
      && (forall r | r in db.runs && db.runs[r].batch == Some(b) :: if db.runs[r].status == Pending && r in ids
            then SettledAs(db.runs[r], db'.runs[r], Cancelled, now) else db'.runs[r] == db.runs[r])
      && db'.batches[b] == db.batches[b].(
           failed := db.batches[b].failed + |taken|,
           finishedAt := if taken != {} && Having(db.runs, b, Pending) <= ids then Some(now) else db.batches[b].finishedAt)
  {
    UnfinishedIsPending(db.runs, b, db.batches[b], late);
    PurgedBatch(db, ids, now, b);
    TakenRuns(db.runs, ids, b);
    PurgeCloses(db.runs, ids, b, db.batches[b], late);
    PurgedColumns(db.runs, ids, b, now);
  }

  lemma PurgedColumns(runs: Runs, ids: set<RunId>, b: BatchId, now: Time)
    requires forall r | r in runs && runs[r].batch == Some(b) :: IsUnfinished(runs[r]) <==> runs[r].status == Pending
    ensures var runs' := Settle(runs, Doomed(runs, ids), Cancelled, now);
      && runs'.Keys == runs.Keys
      && forall r | r in runs && runs[r].batch == Some(b) :: if runs[r].status == Pending && r in ids
           then SettledAs(runs[r], runs'[r], Cancelled, now) else runs'[r] == runs[r]
  {
  }

  lemma TakenRuns(runs: Runs, ids: set<RunId>, b: BatchId)
    requires forall r | r in runs && runs[r].batch == Some(b) :: IsUnfinished(runs[r]) <==> runs[r].status == Pending
    ensures Doomed(runs, ids) * Members(runs, b) == Having(runs, b, Pending) * ids
  {
    forall r ensures r in Doomed(runs, ids) * Members(runs, b) <==> r in Having(runs, b, Pending) * ids {}
  }

  /** Taking pending runs fills the batch exactly when all are taken. */
  lemma PurgeCloses(runs: Runs, ids: set<RunId>, b: BatchId, batch: Batch, late: nat)
    requires Balanced(runs, b, batch, late) == true
    ensures var (pending, taken) := (Having(runs, b, Pending), Having(runs, b, Pending) * ids);
      && (|taken| == 0 <==> taken == {})
      && (taken != {} ==> (IsFull(batch.(failed := batch.failed + |taken|)) <==> pending <= ids))
  {
    var pending, taken := Having(runs, b, Pending), Having(runs, b, Pending) * ids;
    Split(runs, b, batch, late);
    if pending <= ids {
      assert taken == pending;
    } else {
      Fewer(taken, pending);
    }
  }

  lemma Fewer(a: set<RunId>, b: set<RunId>)
    requires a < b
    ensures |a| < |b|
  {
    assert b == a + (b - a) && b - a != {};
  }
}
