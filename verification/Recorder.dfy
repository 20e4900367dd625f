/** The recorder process (src/kiroku/recorder/runner.py), row by row, against the ledger's handlers. */
module Recorder {
  import opened Basics
  import opened GitStore
  import opened Ledger
  import Compliance

  /** Reaping several batches in the order the query returned them. */
  ghost function ReapAll(s: State, order: seq<BatchId>, now: Time): (s': State)
    requires forall b :: b in order ==> b in s.db.batches
    ensures s'.db.batches.Keys == s.db.batches.Keys
  {
    if order == [] then s
    else
      var before := ReapAll(s, order[..|order| - 1], now);
      Reap(before, order[|order| - 1], now)
  }

  class Process {
    var runs: Runs
    var batches: Batches
    var devices: map<DeviceId, Device>
    var configs: map<DeviceId, string>
    var verdicts: Compliance.Table
    const policies: seq<Compliance.Policy>
    /** Paths written but not yet committed, per batch; lost when the process ends. */
    var batchStaged: map<BatchId, seq<Path>>
    const store: Store

    constructor (s: State, store: Store)
      requires store.repo == s.repo && s.staged == map[]
      ensures View() == s && this.store == store
    {
      runs, batches, devices, configs := s.db.runs, s.db.batches, s.db.devices, s.db.configs;
      verdicts, policies, batchStaged, this.store := s.db.verdicts, s.db.policies, map[], store;
    }

    ghost function View(): State
      reads this, store
    {
      State(Db(runs, batches, devices, configs, policies, verdicts), store.repo, batchStaged)
    }

    /** One result, as `_persist` handles it. */
    method Persist(res: Result, now: Time)
      modifies this, store
      ensures View() == Ledger.Persist(old(View()), res, now)
    {
      if res.run !in runs {
        return;
      }
      var run := runs[res.run];
      var b := if run.batch.Some? && run.batch.value in batches then run.batch else None;
      if run.status == Cancelled {
        return;
      }
      run := run.(finishedAt := res.finishedAt.OrElse(run.finishedAt));
      if !res.success {
        run := run.(status := Failed);
        if b.Some? {
          batches := batches[b.value := batches[b.value].(failed := batches[b.value].failed + 1)];
        }
        runs := runs[res.run := run];
      } else {
        run := run.(status := Success);
        if b.Some? {
          batches := batches[b.value := batches[b.value].(succeeded := batches[b.value].succeeded + 1)];
        }
        runs := runs[res.run := run];
        assert View() == Count(old(View()), res);
        if res.kind == Backup && res.configText.Some? {
          CaptureConfig(res);
        }
      }
      assert View() == Recorded(old(View()), res);
      if b.Some? && IsOpen(batches[b.value]) {
        var done := batches[b.value].succeeded + batches[b.value].failed;
        if done >= batches[b.value].total {
          CloseBatch(b.value, res.finishedAt.GetOr(now), now);
        }
      }
    }

    /** Writes the captured text, then updates run, device and search index. */
    method CaptureConfig(res: Result)
      requires Captures(res) && res.run in runs
      modifies this, store
      ensures View() == Capture(old(View()), res)
    {
      var text := res.configText.value;
      var run := runs[res.run];
      var group := if res.device in devices && devices[res.device].groups != [] then devices[res.device].groups[0] else "ungrouped";
      var relPath := FilePath(group, res.deviceName);
      var digest;
      if run.batch.Some? && run.batch.value in batches {
        var changed;
        changed, digest := store.StageFile(group, res.deviceName, text);
        if changed {
          var b := run.batch.value;
          batchStaged := batchStaged[b := GetList(batchStaged, b) + [relPath]];
        }
      } else {
        var sha;
        sha, digest := store.WriteFile(group, res.deviceName, text);
        run := run.(commitSha := sha);
      }
      runs := runs[res.run := run.(payload := Some(digest))];
      if res.device in devices {
        devices := devices[res.device := devices[res.device].(latestPath := Some(relPath), latestAt := res.finishedAt)];
      }
      configs := configs[res.device := text];
    }

    /** Commits and finishes a batch whose every run has been counted. */
    method CloseBatch(b: BatchId, at: Time, now: Time)
      requires b in batches
      modifies this, store
      ensures View() == Close(old(View()), b, at, now)
    {
      batches := batches[b := batches[b].(finishedAt := Some(at))];
      var changedPaths := GetList(batchStaged, b);
      batchStaged := batchStaged - {b};
      ghost var sha := Commit(old(store.repo), changedPaths).1;
      if changedPaths != [] {
        var commitSha := store.CommitBatch(changedPaths);
        if commitSha.Some? {
          batches := batches[b := batches[b].(commitSha := commitSha)];
          StampRuns(b, commitSha.value, false);
        }
      }
      if batches[b].kind == Backup {
        SameDevices(old(runs), runs, b);
        var ids := set r | r in runs && runs[r].batch == Some(b) :: runs[r].device;
        assert ids == DevicesOf(runs, b);
        verdicts := Compliance.AutoEvaluate(policies, configs, ids, verdicts, now);
      }
    }

    /** `for r in runs of the batch: r.commit_sha = sha`, sparing stamped ones when the reaper does it. */
    method StampRuns(b: BatchId, sha: Sha, sparing: bool)
      modifies this`runs
      ensures runs == Stamp(old(runs), b, sha, sparing)
    {
      var todo := set r | r in runs && runs[r].batch == Some(b);
      while todo != {}
        invariant runs.Keys == old(runs).Keys
        invariant forall r | r in todo :: r in runs && runs[r] == old(runs)[r] && runs[r].batch == Some(b)
        invariant forall r | r in runs && r !in todo :: runs[r] == Stamp(old(runs), b, sha, sparing)[r]
      {
        ghost var some := Pick(todo);
        var r :| r in todo;
        if !(sparing && runs[r].commitSha.Some?) {
          runs := runs[r := runs[r].(commitSha := Some(sha))];
        }
        todo := todo - {r};
      }
      forall r | r in runs ensures runs[r] == Stamp(old(runs), b, sha, sparing)[r] {
        assert r !in todo;
      }
      SameMap(runs, Stamp(old(runs), b, sha, sparing));
    }

    /** Force-closes every batch open since before `cutoff`, in the order the query returns them. */
    method ReapStaleBatches(cutoff: Time, now: Time) returns (order: seq<BatchId>)
      modifies this, store
      ensures Distinct(order)
      ensures forall b :: b in order <==>
        b in old(batches) && IsOpen(old(batches)[b]) && old(batches)[b].createdAt < cutoff
      ensures View() == ReapAll(old(View()), order, now)
    {
      var stale := set b | b in batches && IsOpen(batches[b]) && batches[b].createdAt < cutoff;
      ghost var all := stale;
      order := [];
      while stale != {}
        invariant stale <= all && Distinct(order)
        invariant forall b :: b in all <==> b in stale || b in order
        invariant forall b :: b in stale ==> b !in order
        invariant forall b | b in all :: b in old(batches)
        invariant batches.Keys == old(batches).Keys
        invariant View() == ReapAll(old(View()), order, now)
      {
        ghost var some := Pick(stale);
        var b :| b in stale;
        ReapBatch(b, now);
        assert (order + [b])[..|order|] == order;
        order := order + [b];
        stale := stale - {b};
      }
    }

    /** One iteration of the reaper's loop. */
    method ReapBatch(b: BatchId, now: Time)
      requires b in batches
      modifies this, store
      ensures View() == Reap(old(View()), b, now)
    {
      var commitSha := CommitStaged(b);
      batches := batches[b := batches[b].(finishedAt := Some(now))];
      if commitSha.Some? {
        batches := batches[b := batches[b].(commitSha := commitSha)];
      }
      FailOpenRuns(b, now);
      ghost var settled := Settle(old(runs), Unfinished(old(runs), b), Failed, now);
      assert runs == settled;
      if commitSha.Some? {
        StampRuns(b, commitSha.value, true);
        assert runs == Stamp(settled, b, commitSha.value, true);
      }
    }

    /** Takes the batch's paths off the list and commits them. */
    method CommitStaged(b: BatchId) returns (commitSha: Option<Sha>)
      modifies this`batchStaged, store
      ensures batchStaged == old(batchStaged) - {b}
      ensures (store.repo, commitSha) == Commit(old(store.repo), GetList(old(batchStaged), b))
    {
      var changedPaths := GetList(batchStaged, b);
      batchStaged := batchStaged - {b};
      commitSha := None;
      if changedPaths != [] {
        commitSha := store.CommitBatch(changedPaths);
      }
    }

    /** Marks the runs still open as failed, counting each. */
    method FailOpenRuns(b: BatchId, now: Time)
      requires b in batches
      modifies this`runs, this`batches
      ensures runs == Settle(old(runs), Unfinished(old(runs), b), Failed, now)
      ensures batches == old(batches)[b :=
        old(batches)[b].(failed := old(batches)[b].failed + |Unfinished(old(runs), b)|)]
    {
      ghost var all, done: set<RunId> := Unfinished(runs, b), {};
      var todo := set r | r in runs && runs[r].batch == Some(b) && IsUnfinished(runs[r]);
      SettleNone(runs, Failed, now);
      while todo != {}
        invariant forall r | r in todo :: r in all && r !in done
        invariant done <= all && forall r | r in all :: r in todo || r in done
        invariant runs == Settle(old(runs), done, Failed, now)
        invariant batches == Charged(old(batches), b, |done|)
      {
        ghost var some := Pick(todo);
        var r :| r in todo;
        ChargeMore(old(batches), b, done, r);
        SettleMore(old(runs), done, r, Failed, now);
        runs := runs[r := runs[r].(status := Failed, finishedAt := Some(now))];
        batches := batches[b := batches[b].(failed := batches[b].failed + 1)];
        todo, done := todo - {r}, done + {r};
      }
      forall r ensures r in done <==> r in all {}
      assert done == all;
    }
  }

  lemma SameDevices(runs: Runs, runs': Runs, b: BatchId)
    requires runs' == runs || exists sha :: runs' == Stamp(runs, b, sha, false)
    ensures DevicesOf(runs', b) == DevicesOf(runs, b)
  {
    forall r ensures r in Members(runs', b) <==> r in Members(runs, b) {}
    assert Members(runs', b) == Members(runs, b);
    forall d ensures d in DevicesOf(runs', b) <==> d in DevicesOf(runs, b) {
      if d in DevicesOf(runs, b) {
        var r :| r in Members(runs, b) && runs[r].device == d;
        assert r in Members(runs', b) && runs'[r].device == d;
      }
      if d in DevicesOf(runs', b) {
        var r :| r in Members(runs', b) && runs'[r].device == d;
        assert r in Members(runs, b) && runs[r].device == d;
      }
    }
  }
}
