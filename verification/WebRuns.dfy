/** The two web handlers that settle runs (src/kiroku/web/routes/runs.py), against the ledger. */
module WebRuns {
  import opened Basics
  import opened Ledger

  class Session {
    var runs: Runs
    var batches: Batches

    constructor (runs: Runs, batches: Batches)
      ensures this.runs == runs && this.batches == batches
    {
      this.runs, this.batches := runs, batches;
    }

    /** Cancels what is still open in a batch; `rest` is any database the two tables belong to. */
    method CancelBatch(b: BatchId, now: Time, ghost rest: Db)
      modifies this
      ensures rest.(runs := runs, batches := batches)
           == Cancel(rest.(runs := old(runs), batches := old(batches)), b, now)
    {
      if b !in batches || !IsOpen(batches[b]) {
        return;
      }
      CancelOpenRuns(b, now);
      if batches[b].succeeded + batches[b].failed >= batches[b].total {
        batches := batches[b := batches[b].(finishedAt := Some(now))];
      }
    }

    method CancelOpenRuns(b: BatchId, now: Time)
      requires b in batches
      modifies this
      ensures runs == Settle(old(runs), Unfinished(old(runs), b), Cancelled, now)
      ensures batches == old(batches)[b :=
        old(batches)[b].(failed := old(batches)[b].failed + |Unfinished(old(runs), b)|)]
    {
      ghost var all, done: set<RunId> := Unfinished(runs, b), {};
      var pending := set r | r in runs && runs[r].batch == Some(b) && IsUnfinished(runs[r]);
      SettleNone(runs, Cancelled, now);
      while pending != {}
        invariant forall r | r in pending :: r in all && r !in done
        invariant done <= all && forall r | r in all :: r in pending || r in done
        invariant runs == Settle(old(runs), done, Cancelled, now)
        invariant batches == Charged(old(batches), b, |done|)
      {
        ghost var some := Pick(pending);
        var r :| r in pending;
        ChargeMore(old(batches), b, done, r);
        SettleMore(old(runs), done, r, Cancelled, now);
        runs := runs[r := runs[r].(status := Cancelled, finishedAt := Some(now))];
        batches := batches[b := batches[b].(failed := batches[b].failed + 1)];
        pending, done := pending - {r}, done + {r};
      }
      forall r ensures r in done <==> r in all {}
      assert done == all;
    }

    /** Cancels the runs of purged messages, then settles the counters of each batch that lost some. */
    method PurgeQueue(ids: set<RunId>, now: Time, ghost rest: Db)
      modifies this
      ensures rest.(runs := runs, batches := batches)
           == Purge(rest.(runs := old(runs), batches := old(batches)), ids, now)
    {
      var batchCancelled := CancelRuns(ids, now);
      CountCancelled(batchCancelled, now);
      ghost var purged := Purge(rest.(runs := old(runs), batches := old(batches)), ids, now);
      forall b | b in batches ensures batches[b] == purged.batches[b] {}
      SameMap(batches, purged.batches);
    }

    method CountCancelled(batchCancelled: map<BatchId, nat>, now: Time)
      modifies this`batches
      ensures batches.Keys == old(batches).Keys
      ensures forall b | b in batches :: batches[b] == Counted(old(batches)[b], GetCount(batchCancelled, b), now)
      requires forall b | b in batchCancelled :: batchCancelled[b] != 0
    {
      var todo := batchCancelled.Keys;
      while todo != {}
        invariant todo <= batchCancelled.Keys
        invariant batches.Keys == old(batches).Keys
        invariant forall b | b in batches && b !in todo ::
          batches[b] == Counted(old(batches)[b], GetCount(batchCancelled, b), now)
        invariant forall b | b in batches && b in todo :: batches[b] == old(batches)[b]
      {
        ghost var some := Pick(todo);
        var b :| b in todo;
        if b in batches {
          batches := batches[b := batches[b].(failed := batches[b].failed + batchCancelled[b])];
          if IsOpen(batches[b]) && batches[b].succeeded + batches[b].failed >= batches[b].total {
            batches := batches[b := batches[b].(finishedAt := Some(now))];
          }
        }
        todo := todo - {b};
      }
      forall b | b in batches ensures batches[b] == Counted(old(batches)[b], GetCount(batchCancelled, b), now) {
        assert b !in todo;
      }
    }

    method CancelRuns(ids: set<RunId>, now: Time) returns (batchCancelled: map<BatchId, nat>)
      modifies this`runs
      ensures runs == Settle(old(runs), Doomed(old(runs), ids), Cancelled, now)
      ensures Tallied(old(runs), Doomed(old(runs), ids), batchCancelled)
    {
      ghost var done: set<RunId> := {};
      batchCancelled := map[];
      var todo := set r | r in ids && r in runs;
      ghost var doomed := Doomed(runs, ids);
      SettleNone(runs, Cancelled, now);
      NoneTallied(runs);
      while todo != {}
        invariant forall r | r in todo :: r in old(runs) && r in ids && r !in done
        invariant done <= doomed && forall r | r in doomed :: r in todo || r in done
        invariant runs == Settle(old(runs), done, Cancelled, now)
        invariant Tallied(old(runs), done, batchCancelled) == true
      {
        ghost var some := Pick(todo);
        var r :| r in todo;
        todo := todo - {r};
        SettleMore(old(runs), done, r, Cancelled, now);
        var run := runs[r];
        if IsUnfinished(run) {
          TallyGrows(old(runs), done, r, batchCancelled);
          runs := runs[r := run.(status := Cancelled, finishedAt := Some(now))];
          if run.batch.Some? {
            var b := run.batch.value;
            batchCancelled := batchCancelled[b := GetCount(batchCancelled, b) + 1];
          }
          done := done + {r};
        }
      }
      forall r ensures r in done <==> r in doomed {}
      assert done == doomed;
    }
  }

  /** The counter dictionary holds, for each batch, how many of the done runs are its own. */
  ghost predicate Tallied(runs: Runs, done: set<RunId>, counts: map<BatchId, nat>) {
    && (forall b :: GetCount(counts, b) == |done * Members(runs, b)|)
    && (forall b | b in counts :: counts[b] != 0)
  }

  lemma NoneTallied(runs: Runs)
    ensures Tallied(runs, {}, map[]) == true
  {
  }

  lemma TallyGrows(runs: Runs, done: set<RunId>, r: RunId, counts: map<BatchId, nat>)
    requires Tallied(runs, done, counts) && r in runs && r !in done
    ensures Tallied(runs, done + {r},
      match runs[r].batch
      case None => counts
      case Some(b) => counts[b := GetCount(counts, b) + 1]) == true
  {
    GrowDone(runs, done, r);
  }

  function Counted(batch: Batch, n: nat, now: Time): Batch {
    if n == 0 then batch else CloseIfFull(batch.(failed := batch.failed + n), now)
  }

  lemma GrowDone(runs: Runs, done: set<RunId>, r: RunId)
    requires r in runs && r !in done
    ensures forall b ::
      |(done + {r}) * Members(runs, b)| == |done * Members(runs, b)| + if runs[r].batch == Some(b) then 1 else 0
  {
    forall b ensures
      |(done + {r}) * Members(runs, b)| == |done * Members(runs, b)| + if runs[r].batch == Some(b) then 1 else 0
    {
      var before := done * Members(runs, b);
      assert (done + {r}) * Members(runs, b) == if runs[r].batch == Some(b) then before + {r} else before;
    }
  }
}
