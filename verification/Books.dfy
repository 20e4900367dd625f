/**
 * The bookkeeping identity between run statuses and batch counters, and its preservation by every
 * handler that touches the tables.
 */
module Books {
  import opened Basics
  import opened GitStore
  import opened Ledger

  /** The statuses some code writes: RUNNING and TIMEOUT never are. */
  predicate IsWritten(st: Status) {
    st == Pending || st == Success || st == Failed || st == Cancelled
  }

  /**
   * One batch balances against its runs. `late` counts results that arrived for runs the reaper had
   * already failed: each is counted a second time.
   */
  ghost predicate Balanced(runs: Runs, b: BatchId, batch: Batch, late: nat) {
    Tallied(runs, b, batch, late) && Marked(runs, b, batch)
  }

  ghost predicate Tallied(runs: Runs, b: BatchId, batch: Batch, late: nat) {
    && |Members(runs, b)| == batch.total
    && batch.succeeded == |Having(runs, b, Success)|
    && batch.failed == |Having(runs, b, Failed)| + |Having(runs, b, Cancelled)| + late
    && (IsOpen(batch) ==> late == 0 && batch.commitSha.None?)
    && (!IsOpen(batch) ==> Having(runs, b, Pending) == {})
  }

  ghost predicate Marked(runs: Runs, b: BatchId, batch: Batch) {
    && (forall r | r in runs && runs[r].batch == Some(b) :: IsWritten(runs[r].status))
    && (forall r | r in runs && runs[r].batch == Some(b) :: runs[r].commitSha == batch.commitSha)
  }

  /** Every run belongs to a batch and every batch balances. */
  ghost predicate DbBalanced(db: Db, late: map<BatchId, nat>) {
    && (forall r :: r in db.runs ==> db.runs[r].batch.Some? && db.runs[r].batch.value in db.batches)
    && (forall b :: b in db.batches ==> Balanced(db.runs, b, db.batches[b], GetCount(late, b)))
  }

  lemma UnionSize<T>(a: set<T>, b: set<T>, c: set<T>, d: set<T>)
    requires a !! b !! c !! d
    ensures |a + b + c + d| == |a| + |b| + |c| + |d|
  {
  }

  lemma StatusUnion(runs: Runs, b: BatchId)
    requires forall r | r in runs && runs[r].batch == Some(b) :: IsWritten(runs[r].status)
    ensures Members(runs, b)
         == Having(runs, b, Pending) + Having(runs, b, Success) + Having(runs, b, Failed) + Having(runs, b, Cancelled)
    ensures Unfinished(runs, b) == Having(runs, b, Pending)
  {
    forall r
      ensures r in Members(runs, b) <==>
        r in Having(runs, b, Pending) || r in Having(runs, b, Success)
        || r in Having(runs, b, Failed) || r in Having(runs, b, Cancelled)
      ensures r in Unfinished(runs, b) <==> r in Having(runs, b, Pending)
    {}
  }

  /** The statuses split a batch: everything counted, except late results, is a run no longer pending. */
  lemma Split(runs: Runs, b: BatchId, batch: Batch, late: nat)
    requires Balanced(runs, b, batch, late)
    ensures |Having(runs, b, Pending)| + batch.succeeded + batch.failed == batch.total + late
    ensures Unfinished(runs, b) == Having(runs, b, Pending)
    ensures IsFull(batch) ==> Having(runs, b, Pending) == {}
  {
    StatusUnion(runs, b);
    UnionSize(Having(runs, b, Pending), Having(runs, b, Success), Having(runs, b, Failed), Having(runs, b, Cancelled));
  }

  /** Two tables that show the same statuses and shas for a batch balance alike. */
  lemma BalancedFrame(runs: Runs, runs': Runs, b: BatchId, batch: Batch, late: nat)
    requires Balanced(runs, b, batch, late)
    requires Members(runs', b) == Members(runs, b)
    requires forall r | r in runs && runs[r].batch == Some(b) ::
      r in runs' && runs'[r].status == runs[r].status && runs'[r].commitSha == runs[r].commitSha
    ensures Balanced(runs', b, batch, late)
  {
    forall r | r in runs' && runs'[r].batch == Some(b) ensures r in runs && runs[r].batch == Some(b) {
      assert r in Members(runs', b);
    }
    forall st: Status ensures Having(runs', b, st) == Having(runs, b, st) {
      forall r ensures r in Having(runs', b, st) <==> r in Having(runs, b, st) {
        assert r in Members(runs', b) <==> r in Members(runs, b);
      }
    }
  }

  lemma SettleSets(runs: Runs, rs: set<RunId>, st: Status, now: Time, b: BatchId)
    requires st == Failed || st == Cancelled
    requires rs * Members(runs, b) <= Having(runs, b, Pending)
    ensures var runs' := Settle(runs, rs, st, now);
      && Members(runs', b) == Members(runs, b)
      && Having(runs', b, Pending) == Having(runs, b, Pending) - rs
      && |Having(runs', b, st)| == |Having(runs, b, st)| + |rs * Members(runs, b)|
      && (forall st' :: st' != st && st' != Pending ==> Having(runs', b, st') == Having(runs, b, st'))
  {
    var runs' := Settle(runs, rs, st, now);
    var hit := rs * Members(runs, b);
    forall r
      ensures r in Members(runs', b) <==> r in Members(runs, b)
      ensures r in Having(runs', b, Pending) <==> r in Having(runs, b, Pending) && r !in rs
      ensures r in Having(runs', b, st) <==> r in Having(runs, b, st) || r in hit
    {}
    assert Having(runs', b, st) == Having(runs, b, st) + hit;
    forall st' | st' != st && st' != Pending ensures Having(runs', b, st') == Having(runs, b, st') {
      forall r ensures r in Having(runs', b, st') <==> r in Having(runs, b, st') {
        assert r in hit ==> r in Having(runs, b, Pending);
      }
    }
  }

  /** Settling pending runs as failed or cancelled, and counting each once, keeps the balance. */
  lemma SettleBalanced(runs: Runs, rs: set<RunId>, st: Status, now: Time, b: BatchId, batch: Batch, late: nat)
    requires Balanced(runs, b, batch, late)
    requires st == Failed || st == Cancelled
    requires rs * Members(runs, b) <= Having(runs, b, Pending)
    ensures var n := |rs * Members(runs, b)|;
      Balanced(Settle(runs, rs, st, now), b, batch.(failed := batch.failed + n), late)
  {
    SettleSets(runs, rs, st, now, b);
  }

  /** Closing a batch without pending runs, with or without a sha stamped on all of its runs. */
  lemma CloseBalanced(runs: Runs, b: BatchId, batch: Batch, at: Time, sha: Option<Sha>, sparing: bool)
    requires Balanced(runs, b, batch, 0) && IsOpen(batch)
    requires Having(runs, b, Pending) == {}
    ensures var closed := batch.(finishedAt := Some(at));
      match sha
      case None => Balanced(runs, b, closed, 0)
      case Some(c) => Balanced(Stamp(runs, b, c, sparing), b, closed.(commitSha := sha), 0)
  {
    if sha.Some? {
      var runs' := Stamp(runs, b, sha.value, sparing);
      assert Members(runs', b) == Members(runs, b);
      assert forall st :: Having(runs', b, st) == Having(runs, b, st);
    }
  }

  lemma StampFrame(runs: Runs, b: BatchId, sha: Sha, sparing: bool, b': BatchId, batch: Batch, late: nat)
    requires Balanced(runs, b', batch, late) && b' != b
    ensures Balanced(Stamp(runs, b, sha, sparing), b', batch, late)
  {
    var runs' := Stamp(runs, b, sha, sparing);
    assert Members(runs', b') == Members(runs, b');
    BalancedFrame(runs, runs', b', batch, late);
  }

  /** No row goes, none comes, and every run stays in its batch. */
  ghost predicate SameRows(db: Db, db': Db) {
    && db'.runs.Keys == db.runs.Keys && db'.batches.Keys == db.batches.Keys
    && forall r | r in db.runs :: db'.runs[r].batch == db.runs[r].batch
  }

  lemma Assemble(db: Db, db': Db, late: map<BatchId, nat>, late': map<BatchId, nat>)
    requires DbBalanced(db, late) == true && SameRows(db, db') == true
    requires forall b | b in db'.batches :: Balanced(db'.runs, b, db'.batches[b], GetCount(late', b)) == true
    ensures DbBalanced(db', late') == true
  {
  }

  // ----- each handler keeps the tables balanced -----

  lemma CancelKeeps(db: Db, b: BatchId, now: Time, late: map<BatchId, nat>)
    requires DbBalanced(db, late)
    ensures DbBalanced(Cancel(db, b, now), late) == true
    ensures b in db.batches ==> !IsOpen(Cancel(db, b, now).batches[b])
  {
    if b in db.batches && IsOpen(db.batches[b]) {
      var db' := Cancel(db, b, now);
      CancelRows(db, b, now);
      CancelThis(db, b, now);
      forall b' | b' in db.batches ensures Balanced(db'.runs, b', db'.batches[b'], GetCount(late, b')) == true {
        if b' != b {
          CancelOther(db, b, now, b', GetCount(late, b'));
        }
      }
      Assemble(db, db', late, late);
    }
  }

  lemma CancelRows(db: Db, b: BatchId, now: Time)
    ensures SameRows(db, Cancel(db, b, now)) == true
  {
  }

  lemma CancelThis(db: Db, b: BatchId, now: Time)
    requires b in db.batches && IsOpen(db.batches[b]) && Balanced(db.runs, b, db.batches[b], 0)
    ensures var db' := Cancel(db, b, now); Balanced(db'.runs, b, db'.batches[b], 0) == true && !IsOpen(db'.batches[b])
  {
    var rs, db' := Unfinished(db.runs, b), Cancel(db, b, now);
    var batch := db.batches[b].(failed := db.batches[b].failed + |rs|);
    Split(db.runs, b, db.batches[b], 0);
    assert rs * Members(db.runs, b) == rs;
    SettleSets(db.runs, rs, Cancelled, now, b);
    SettleBalanced(db.runs, rs, Cancelled, now, b, db.batches[b], 0);
    Split(db'.runs, b, batch, 0);
    CloseBalanced(db'.runs, b, batch, now, None, false);
  }

  lemma CancelOther(db: Db, b: BatchId, now: Time, b': BatchId, late: nat)
    requires b in db.batches && IsOpen(db.batches[b]) && Balanced(db.runs, b, db.batches[b], 0)
    requires b' != b && b' in db.batches && Balanced(db.runs, b', db.batches[b'], late)
    ensures var db' := Cancel(db, b, now); Balanced(db'.runs, b', db'.batches[b'], late) == true
  {
    var rs := Unfinished(db.runs, b);
    assert rs * Members(db.runs, b') == {};
    SettleBalanced(db.runs, rs, Cancelled, now, b', db.batches[b'], late);
  }

  lemma PurgeKeeps(db: Db, ids: set<RunId>, now: Time, late: map<BatchId, nat>)
    requires DbBalanced(db, late)
    ensures DbBalanced(Purge(db, ids, now), late) == true
  {
    var db' := Purge(db, ids, now);
    PurgeRows(db, ids, now);
    forall b | b in db.batches ensures Balanced(db'.runs, b, db'.batches[b], GetCount(late, b)) == true {
      PurgeOne(db, ids, now, b, GetCount(late, b));
    }
    Assemble(db, db', late, late);
  }

  lemma PurgeRows(db: Db, ids: set<RunId>, now: Time)
    ensures SameRows(db, Purge(db, ids, now)) == true
  {
    assert Purge(db, ids, now).batches.Keys == db.batches.Keys;
  }

  /** A purge as seen from one batch: the runs taken are counted, and the batch is closed when that fills it. */
  lemma PurgeOne(db: Db, ids: set<RunId>, now: Time, b: BatchId, late: nat)
    requires b in db.batches && Balanced(db.runs, b, db.batches[b], late)
    ensures var db' := Purge(db, ids, now); Balanced(db'.runs, b, db'.batches[b], late) == true
  {
    var rs := Doomed(db.runs, ids);
    var hit := rs * Members(db.runs, b);
    var batch := db.batches[b].(failed := db.batches[b].failed + |hit|);
    assert hit <= Unfinished(db.runs, b);
    Split(db.runs, b, db.batches[b], late);
    SettleBalanced(db.runs, rs, Cancelled, now, b, db.batches[b], late);
    PurgedBatch(db, ids, now, b);
    if |hit| != 0 && IsFull(batch) {
      Split(Settle(db.runs, rs, Cancelled, now), b, batch, late);
      CloseBalanced(Settle(db.runs, rs, Cancelled, now), b, batch, now, None, false);
    }
  }

  lemma PurgedBatch(db: Db, ids: set<RunId>, now: Time, b: BatchId)
    requires b in db.batches
    ensures var db' := Purge(db, ids, now);
      var n := |Doomed(db.runs, ids) * Members(db.runs, b)|;
      var batch := db.batches[b].(failed := db.batches[b].failed + n);
      && db'.runs == Settle(db.runs, Doomed(db.runs, ids), Cancelled, now)
      && b in db'.batches && db'.batches[b] == if n == 0 then batch else CloseIfFull(batch, now)
  {
  }

  /** A purge finishes a batch it takes runs from, unless some run of it is still pending. */
  lemma PurgeFinishes(db: Db, ids: set<RunId>, now: Time, late: map<BatchId, nat>, b: BatchId)
    requires DbBalanced(db, late) && b in db.batches && Doomed(db.runs, ids) * Members(db.runs, b) != {}
    ensures var db' := Purge(db, ids, now); IsOpen(db'.batches[b]) <==> Having(db'.runs, b, Pending) != {}
  {
    PurgeOne(db, ids, now, b, GetCount(late, b));
    PurgedBatch(db, ids, now, b);
    assert |Doomed(db.runs, ids) * Members(db.runs, b)| != 0;
    var db' := Purge(db, ids, now);
    OpenIffPending(db'.runs, b, db'.batches[b], GetCount(late, b));
  }

  lemma OpenIffPending(runs: Runs, b: BatchId, batch: Batch, late: nat)
    requires Balanced(runs, b, batch, late) && !IsFull(batch)
    ensures IsOpen(batch) <==> Having(runs, b, Pending) != {}
  {
    Split(runs, b, batch, late);
  }

  lemma ReapKeeps(s: State, b: BatchId, now: Time, late: map<BatchId, nat>)
    requires b in s.db.batches && IsOpen(s.db.batches[b])
    requires DbBalanced(s.db, late)
    ensures DbBalanced(Reap(s, b, now).db, late) == true
    ensures !IsOpen(Reap(s, b, now).db.batches[b]) && Having(Reap(s, b, now).db.runs, b, Pending) == {}
  {
    var db' := Reap(s, b, now).db;
    ReapRows(s, b, now);
    forall b' | b' in s.db.batches ensures Balanced(db'.runs, b', db'.batches[b'], GetCount(late, b')) == true {
      ReapAt(s, b, now, b', GetCount(late, b'));
    }
    Assemble(s.db, db', late, late);
    ReapAt(s, b, now, b, 0);
    ClosedHasNone(db'.runs, b, db'.batches[b], 0);
  }

  lemma ClosedHasNone(runs: Runs, b: BatchId, batch: Batch, late: nat)
    requires Balanced(runs, b, batch, late) && !IsOpen(batch)
    ensures Having(runs, b, Pending) == {}
  {
  }

  lemma ReapRows(s: State, b: BatchId, now: Time)
    requires b in s.db.batches
    ensures var db' := Reap(s, b, now).db;
      SameRows(s.db, db') == true && !IsOpen(db'.batches[b])
  {
  }

  lemma ReapAt(s: State, b: BatchId, now: Time, b': BatchId, late: nat)
    requires b in s.db.batches && IsOpen(s.db.batches[b]) && Balanced(s.db.runs, b, s.db.batches[b], 0)
    requires b' in s.db.batches && Balanced(s.db.runs, b', s.db.batches[b'], late)
    ensures var db' := Reap(s, b, now).db; Balanced(db'.runs, b', db'.batches[b'], late) == true
  {
    ReapOne(s.db, b, now, Commit(s.repo, GetList(s.staged, b)).1, b', late);
  }

  /** The reaper's effect on the runs, as seen from one batch. */
  lemma ReapOne(db: Db, b: BatchId, now: Time, sha: Option<Sha>, b': BatchId, late: nat)
    requires b in db.batches && IsOpen(db.batches[b]) && Balanced(db.runs, b, db.batches[b], 0)
    requires b' in db.batches && Balanced(db.runs, b', db.batches[b'], late)
    ensures var rs := Unfinished(db.runs, b);
      var settled := Settle(db.runs, rs, Failed, now);
      var runs' := if sha.Some? then Stamp(settled, b, sha.value, true) else settled;
      if b' != b then Balanced(runs', b', db.batches[b'], late)
      else
        var batch := db.batches[b].(finishedAt := Some(now), failed := db.batches[b].failed + |rs|);
        Balanced(runs', b, if sha.Some? then batch.(commitSha := sha) else batch, late)
  {
    var rs := Unfinished(db.runs, b);
    Split(db.runs, b, db.batches[b], 0);
    var settled := Settle(db.runs, rs, Failed, now);
    if b' != b {
      assert rs * Members(db.runs, b') == {};
      SettleBalanced(db.runs, rs, Failed, now, b', db.batches[b'], late);
      if sha.Some? {
        StampFrame(settled, b, sha.value, true, b', db.batches[b'], late);
      }
    } else {
      assert rs * Members(db.runs, b) == rs;
      SettleSets(db.runs, rs, Failed, now, b);
      SettleBalanced(db.runs, rs, Failed, now, b, db.batches[b], 0);
      CloseBalanced(settled, b, db.batches[b].(failed := db.batches[b].failed + |rs|), now, sha, true);
    }
  }

  /** The late counters after a result has been counted. */
  function LateAfter(db: Db, res: Result, late: map<BatchId, nat>): map<BatchId, nat> {
    if res.run in db.runs && db.runs[res.run].status == Failed && db.runs[res.run].batch.Some?
    then var b := db.runs[res.run].batch.value; late[b := GetCount(late, b) + 1]
    else late
  }

  /** A result may be counted on a pending run, or on a failed run of a closed batch. */
  ghost predicate MayCount(db: Db, run: RunId) {
    && run in db.runs && BatchOf(db, db.runs[run]).Some?
    && (db.runs[run].status == Pending
        || (db.runs[run].status == Failed && !IsOpen(db.batches[db.runs[run].batch.value])))
  }

  /** Changing the status of one run moves it between the two status sets of its batch. */
  lemma MoveSets(runs: Runs, r: RunId, run': Run, b: BatchId, st: Status)
    requires r in runs && run'.batch == runs[r].batch
    ensures var runs' := runs[r := run'];
      var before := if runs[r].batch == Some(b) && runs[r].status == st then 1 else 0;
      var after := if runs[r].batch == Some(b) && run'.status == st then 1 else 0;
      && Members(runs', b) == Members(runs, b)
      && |Having(runs', b, st)| == |Having(runs, b, st)| - before + after
      && (run'.status != st ==> Having(runs', b, st) == Having(runs, b, st) - {r})
  {
    var runs' := runs[r := run'];
    forall x ensures x in Members(runs', b) <==> x in Members(runs, b) {}
    var rest := Having(runs, b, st) - {r};
    forall x ensures x in Having(runs', b, st) - {r} <==> x in rest {}
    Toggled(Having(runs, b, st), rest, r);
    Toggled(Having(runs', b, st), rest, r);
  }

  lemma Toggled(all: set<RunId>, rest: set<RunId>, r: RunId)
    requires rest == all - {r}
    ensures |all| == |rest| + if r in all then 1 else 0
  {
    assert r in all ==> all == rest + {r};
  }

  /** A pending run, or a failed one of a closed batch, becomes successful or failed and is counted. */
  lemma CountedBalanced(runs: Runs, r: RunId, run': Run, b: BatchId, batch: Batch, late: nat)
    requires Balanced(runs, b, batch, late) && r in runs && runs[r].batch == run'.batch == Some(b)
    requires runs[r].status == Pending || (runs[r].status == Failed && !IsOpen(batch))
    requires run'.status == Success || run'.status == Failed
    requires run'.commitSha == runs[r].commitSha
    ensures Balanced(runs[r := run'], b, Counted(batch, run'.status), if runs[r].status == Failed then late + 1 else late) == true
  {
    CountedTallies(runs, r, run', b, batch, late);
    CountedMarks(runs, r, run', b, batch);
  }

  function Counted(batch: Batch, st: Status): Batch {
    if st == Success then batch.(succeeded := batch.succeeded + 1) else batch.(failed := batch.failed + 1)
  }

  lemma CountedTallies(runs: Runs, r: RunId, run': Run, b: BatchId, batch: Batch, late: nat)
    requires Tallied(runs, b, batch, late) && r in runs && runs[r].batch == run'.batch == Some(b)
    requires runs[r].status == Pending || (runs[r].status == Failed && !IsOpen(batch))
    requires run'.status == Success || run'.status == Failed
    ensures Tallied(runs[r := run'], b, Counted(batch, run'.status), if runs[r].status == Failed then late + 1 else late) == true
  {
    MoveSets(runs, r, run', b, Pending);
    MoveSets(runs, r, run', b, Success);
    MoveSets(runs, r, run', b, Failed);
    MoveSets(runs, r, run', b, Cancelled);
  }

  lemma CountedMarks(runs: Runs, r: RunId, run': Run, b: BatchId, batch: Batch)
    requires Marked(runs, b, batch) && r in runs && runs[r].batch == run'.batch == Some(b)
    requires (run'.status == Success || run'.status == Failed) && run'.commitSha == runs[r].commitSha
    ensures Marked(runs[r := run'], b, Counted(batch, run'.status)) == true
  {
  }

  /** Rewriting a run of another batch. */
  lemma ForeignBalanced(runs: Runs, r: RunId, run': Run, b: BatchId, batch: Batch, late: nat)
    requires Balanced(runs, b, batch, late) && r in runs && runs[r].batch == run'.batch != Some(b)
    ensures Balanced(runs[r := run'], b, batch, late) == true
  {
    var runs' := runs[r := run'];
    forall x ensures x in Members(runs', b) <==> x in Members(runs, b) {}
    BalancedFrame(runs, runs', b, batch, late);
  }

  lemma CountOne(s: State, res: Result, b: BatchId, late: nat)
    requires MayCount(s.db, res.run)
    requires b in s.db.batches && Balanced(s.db.runs, b, s.db.batches[b], late)
    ensures var db' := Count(s, res).db;
      var again := s.db.runs[res.run].batch == Some(b) && s.db.runs[res.run].status == Failed;
      b in db'.batches && Balanced(db'.runs, b, db'.batches[b], if again then late + 1 else late) == true
  {
    var run' := Count(s, res).db.runs[res.run];
    if s.db.runs[res.run].batch == Some(b) {
      CountedBalanced(s.db.runs, res.run, run', b, s.db.batches[b], late);
    } else {
      ForeignBalanced(s.db.runs, res.run, run', b, s.db.batches[b], late);
    }
  }

  lemma CountKeeps(s: State, res: Result, late: map<BatchId, nat>)
    requires DbBalanced(s.db, late) && MayCount(s.db, res.run)
    ensures DbBalanced(Count(s, res).db, LateAfter(s.db, res, late)) == true
  {
    var db', late' := Count(s, res).db, LateAfter(s.db, res, late);
    CountRows(s, res);
    forall b | b in s.db.batches ensures Balanced(db'.runs, b, db'.batches[b], GetCount(late', b)) == true {
      CountOne(s, res, b, GetCount(late, b));
      LateAt(s.db, res, late, b);
    }
    Assemble(s.db, db', late, late');
  }

  lemma CountRows(s: State, res: Result)
    requires res.run in s.db.runs
    ensures SameRows(s.db, Count(s, res).db) == true
  {
  }

  lemma LateAt(db: Db, res: Result, late: map<BatchId, nat>, b: BatchId)
    requires res.run in db.runs
    ensures GetCount(LateAfter(db, res, late), b)
         == GetCount(late, b) + if db.runs[res.run].status == Failed && db.runs[res.run].batch == Some(b) then 1 else 0
  {
  }

  lemma CaptureKeeps(s: State, res: Result, late: map<BatchId, nat>)
    requires DbBalanced(s.db, late) && Captures(res) && res.run in s.db.runs
    ensures DbBalanced(Capture(s, res).db, late) == true
    ensures Capture(s, res).db.batches == s.db.batches
  {
    var db, db' := s.db, Capture(s, res).db;
    CaptureTouches(s, res);
    CaptureSha(s, res);
    assert SameRows(db, db') == true;
    forall b | b in db.batches ensures Balanced(db'.runs, b, db'.batches[b], GetCount(late, b)) == true {
      AlikeBalanced(db.runs, res.run, db'.runs[res.run], b, db.batches[b], GetCount(late, b));
    }
    Assemble(db, db', late, late);
  }

  /** Rewriting one run, but not its batch, status or sha. */
  lemma AlikeBalanced(runs: Runs, r: RunId, run': Run, b: BatchId, batch: Batch, late: nat)
    requires Balanced(runs, b, batch, late) && r in runs
    requires run'.batch == runs[r].batch && run'.status == runs[r].status && run'.commitSha == runs[r].commitSha
    ensures Balanced(runs[r := run'], b, batch, late) == true
  {
    var runs' := runs[r := run'];
    forall x ensures x in Members(runs', b) <==> x in Members(runs, b) {}
    BalancedFrame(runs, runs', b, batch, late);
  }

  /** A capture for a batch leaves the run's sha; so does one for a run without a batch that is known. */
  lemma CaptureSha(s: State, res: Result)
    requires Captures(res) && res.run in s.db.runs && BatchOf(s.db, s.db.runs[res.run]).Some?
    ensures Capture(s, res).db.runs[res.run].commitSha == s.db.runs[res.run].commitSha
  {
  }

  lemma CloseKeeps(s: State, b: BatchId, at: Time, now: Time, late: map<BatchId, nat>)
    requires DbBalanced(s.db, late) && b in s.db.batches && IsFull(s.db.batches[b])
    ensures DbBalanced(Close(s, b, at, now).db, late) == true
  {
    var db' := Close(s, b, at, now).db;
    CloseRows(s, b, at, now);
    forall b' | b' in s.db.batches ensures Balanced(db'.runs, b', db'.batches[b'], GetCount(late, b')) == true {
      CloseAt(s, b, at, now, b', GetCount(late, b'));
    }
    Assemble(s.db, db', late, late);
  }

  lemma CloseAt(s: State, b: BatchId, at: Time, now: Time, b': BatchId, late: nat)
    requires b in s.db.batches && IsFull(s.db.batches[b]) && Balanced(s.db.runs, b, s.db.batches[b], 0)
    requires b' in s.db.batches && Balanced(s.db.runs, b', s.db.batches[b'], late)
    ensures var db' := Close(s, b, at, now).db; Balanced(db'.runs, b', db'.batches[b'], late) == true
  {
    var sha := Commit(s.repo, GetList(s.staged, b)).1;
    if b' == b {
      Split(s.db.runs, b, s.db.batches[b], 0);
      CloseBalanced(s.db.runs, b, s.db.batches[b], at, sha, false);
    } else if sha.Some? {
      StampFrame(s.db.runs, b, sha.value, false, b', s.db.batches[b'], late);
    }
  }

  /** Persisting a result: the balance holds with the late counter moved exactly when the run had failed. */
  lemma PersistKeeps(s: State, res: Result, now: Time, late: map<BatchId, nat>)
    requires DbBalanced(s.db, late)
    requires Discards(s, res) || MayCount(s.db, res.run)
    ensures DbBalanced(Persist(s, res, now).db, if Discards(s, res) then late else LateAfter(s.db, res, late)) == true
  {
    if !Discards(s, res) {
      var b := s.db.runs[res.run].batch.value;
      var s1, late' := Count(s, res), LateAfter(s.db, res, late);
      CountKeeps(s, res, late);
      if Captures(res) {
        CaptureKeeps(s1, res, late');
      }
      var s2 := Recorded(s, res);
      if IsFull(s2.db.batches[b]) {
        CloseKeeps(s2, b, res.finishedAt.GetOr(now), now, late');
      }
    }
  }

  // ----- what every handler leaves alone -----

  /**
   * One table transaction that touches only the given runs: rows stay, runs keep their batch, a finished
   * batch keeps its finishing time and its sha, and no batch is left open although it is full.
   */
  ghost predicate Settles(db: Db, db': Db, touched: set<RunId>) {
    && db'.runs.Keys == db.runs.Keys && db'.batches.Keys == db.batches.Keys
    && (forall r | r in db.runs :: db'.runs[r].batch == db.runs[r].batch
         && (r !in touched ==> db'.runs[r].status == db.runs[r].status))
    && (forall b | b in db.batches :: BatchSettles(db.batches[b], db'.batches[b]))
  }

  ghost predicate BatchSettles(batch: Batch, batch': Batch) {
    && batch'.total == batch.total && batch'.kind == batch.kind
    && (!IsOpen(batch) ==> batch'.finishedAt == batch.finishedAt && batch'.commitSha == batch.commitSha)
    && (batch' == batch || !IsFull(batch'))
  }

  lemma CancelSettles(db: Db, b: BatchId, now: Time)
    ensures Settles(db, Cancel(db, b, now), Unfinished(db.runs, b))
  {
  }

  lemma PurgeSettles(db: Db, ids: set<RunId>, now: Time)
    ensures Settles(db, Purge(db, ids, now), Doomed(db.runs, ids))
  {
    var db' := Purge(db, ids, now);
    assert db'.batches.Keys == db.batches.Keys;
    forall b | b in db.batches ensures BatchSettles(db.batches[b], db'.batches[b]) == true {
      PurgedBatch(db, ids, now, b);
    }
  }

  lemma ReapSettles(s: State, b: BatchId, now: Time)
    requires b in s.db.batches && IsOpen(s.db.batches[b])
    ensures Settles(s.db, Reap(s, b, now).db, Unfinished(s.db.runs, b))
    ensures !IsOpen(Reap(s, b, now).db.batches[b])
  {
  }

  lemma CaptureTouches(s: State, res: Result)
    requires Captures(res) && res.run in s.db.runs
    ensures var db, db' := s.db, Capture(s, res).db;
      && db'.batches == db.batches
      && db'.runs.Keys == db.runs.Keys
      && db'.runs == db.runs[res.run := db'.runs[res.run]]
      && db'.runs[res.run].batch == db.runs[res.run].batch
      && db'.runs[res.run].status == db.runs[res.run].status
  {
    var (s', sha) := CaptureFile(s, res);
    assert s'.db == s.db;
  }

  /** Recording a result rewrites one run and the counters of its batch. */
  lemma RecordedRows(s: State, res: Result)
    requires !Discards(s, res)
    ensures var db, db' := s.db, Recorded(s, res).db;
      var b := BatchOf(db, db.runs[res.run]);
      && db'.runs.Keys == db.runs.Keys && db'.batches.Keys == db.batches.Keys
      && (forall r | r in db.runs :: db'.runs[r].batch == db.runs[r].batch)
      && (forall r | r in db.runs && r != res.run :: db'.runs[r] == db.runs[r])
      && db'.runs[res.run].status == (if res.success then Success else Failed)
      && (forall b' | b' in db.batches && Some(b') != b :: db'.batches[b'] == db.batches[b'])
      && (b.Some? ==> var batch, batch' := db.batches[b.value], db'.batches[b.value];
           batch' == batch.(succeeded := batch'.succeeded, failed := batch'.failed))
  {
    var s1 := Count(s, res);
    assert s1.db.runs == s.db.runs[res.run := s1.db.runs[res.run]];
    if Captures(res) {
      CaptureTouches(s1, res);
      assert Recorded(s, res) == Capture(s1, res);
    }
  }

  lemma CloseRows(s: State, b: BatchId, at: Time, now: Time)
    requires b in s.db.batches && IsOpen(s.db.batches[b])
    ensures var db, db' := s.db, Close(s, b, at, now).db;
      && db'.runs.Keys == db.runs.Keys && db'.batches.Keys == db.batches.Keys
      && (forall r | r in db.runs :: db'.runs[r].batch == db.runs[r].batch && db'.runs[r].status == db.runs[r].status)
      && (forall b' | b' in db.batches && b' != b :: db'.batches[b'] == db.batches[b'])
      && !IsOpen(db'.batches[b])
      && db'.batches[b].total == db.batches[b].total && db'.batches[b].kind == db.batches[b].kind
  {
  }

  lemma PersistSettles(s: State, res: Result, now: Time)
    ensures Settles(s.db, Persist(s, res, now).db, {res.run})
    ensures !Discards(s, res) ==>
      Persist(s, res, now).db.runs[res.run].status == if res.success then Success else Failed
  {
    if !Discards(s, res) {
      RecordedRows(s, res);
      var s' := Recorded(s, res);
      var b := BatchOf(s.db, s.db.runs[res.run]);
      if b.Some? && IsFull(s'.db.batches[b.value]) {
        CloseRows(s', b.value, res.finishedAt.GetOr(now), now);
      }
    }
  }
}
