/** What the protocol guarantees about backup files, for every execution of the whole system. */
module Backups {
  import opened Basics
  import opened GitStore
  import opened Ledger
  import opened Books
  import opened Staging
  import opened Lifecycle
  import opened Safety
  import opened Executions

  // ----- what lets go of a path -----

  /** Steps that can let go of a dirty path: a failing file write or commit, and a recorder restart. */
  predicate Looses(step: Step) {
    || step.RestartRecorder?
    || (step.PersistRaises? && (step.how.DuringStage? || step.how.DuringCommit?))
    || (step.ReapRaises? && !step.committed)
  }

  /** No other step makes a path loose or drops one that was appended. */
  lemma StaysTight(w: World, step: Step)
    requires Enabled(w, step) && !Looses(step)
    ensures Apply(w, step).h.loose == w.h.loose && Apply(w, step).h.dropped == w.h.dropped
  {
    if IsRecorders(step) {
      RecorderTight(w, step);
    } else {
      OthersKeepFiles(w, step);
    }
  }

  lemma RecorderTight(w: World, step: Step)
    requires Enabled(w, step) && IsRecorders(step) && !Looses(step)
    ensures Recording(w, step).h.loose == w.h.loose && Recording(w, step).h.dropped == w.h.dropped
  {
    match step
    case PersistResult(res, now) => PersistTight(w, res, now);
    case PersistRaises(res, how, now) => CrashTight(w, res, how, now);
    case ReapBatch(b, now) => ReapTight(w, b, now);
    case ReapRaises(b, committed, added, now) => ReapCrashTight(w, b, added, now);
  }

  lemma PersistTight(w: World, res: Result, now: Time)
    ensures AfterPersist(w, res, now).h.loose == w.h.loose && AfterPersist(w, res, now).h.dropped == w.h.dropped
  {
  }

  lemma CrashTight(w: World, res: Result, how: Crash, now: Time)
    requires MayCrash(w.s, res, how) && !how.DuringStage? && !how.DuringCommit?
    ensures AfterCrash(w, res, how, now).h.loose == w.h.loose && AfterCrash(w, res, how, now).h.dropped == w.h.dropped
  {
    assert Loosened(w.s, res, how) == {};
  }

  lemma ReapTight(w: World, b: BatchId, now: Time)
    requires b in w.s.db.batches
    ensures AfterReap(w, b, now).h.loose == w.h.loose && AfterReap(w, b, now).h.dropped == w.h.dropped
  {
  }

  lemma ReapCrashTight(w: World, b: BatchId, added: bool, now: Time)
    requires b in w.s.db.batches
    ensures var w' := AfterReapCrash(w, b, true, added, now); w'.h.loose == w.h.loose && w'.h.dropped == w.h.dropped
  {
  }

  /** Without a failing write or commit and without a restart, nothing is loose and nothing was dropped. */
  lemma {:induction false} NothingLoose(ws: seq<World>, steps: seq<Step>, i: nat)
    requires Execution(ws, steps) && i < |ws|
    requires forall k | 0 <= k < i :: !Looses(steps[k])
    ensures ws[i].h.loose == {} && forall b :: Times(ws[i].h.dropped, b) == multiset{}
  {
    if i > 0 {
      NothingLoose(ws, steps, i - 1);
      assert StepAt(ws, steps, i - 1);
      StaysTight(ws[i - 1], steps[i - 1]);
    }
  }

  /**
   * Unless a file write, a commit or the recorder itself failed, every path whose text on disk is not
   * HEAD's is in the staging list of some batch; once the lists are empty HEAD is the working tree.
   */
  lemma DirtyIsListed(ws: seq<World>, steps: seq<Step>, i: nat)
    requires Execution(ws, steps) && i < |ws|
    requires forall k | 0 <= k < i :: !Looses(steps[k])
    ensures forall p | p in Dirty(ws[i].s.repo) :: exists b :: b in ws[i].s.staged && p in ws[i].s.staged[b]
    ensures (forall b | b in ws[i].s.staged :: ws[i].s.staged[b] == []) ==> ws[i].s.repo.tree == ws[i].s.repo.head
  {
    Reachable(ws, steps, i);
    NothingLoose(ws, steps, i);
    var s := ws[i].s;
    forall p | p in Dirty(s.repo) ensures exists b :: b in s.staged && p in s.staged[b] {
      assert p in Listed(s.staged);
    }
    if forall b | b in s.staged :: s.staged[b] == [] {
      assert Listed(s.staged) == {};
      DrainedMeansClean(s);
    }
  }

  // ----- where every path goes -----

  /**
   * Counted with multiplicity, the paths appended for a batch are those still in its list, those handed to a commit
   * that went through, and those dropped; none is dropped before a write, a commit or the recorder fails.
   */
  lemma PathsConserved(ws: seq<World>, steps: seq<Step>, i: nat, b: BatchId)
    requires Execution(ws, steps) && i < |ws|
    ensures var (h, held) := (ws[i].h, multiset(GetList(ws[i].s.staged, b)));
      && Times(h.appended, b) == Times(h.committed, b) + Times(h.dropped, b) + held
      && ((forall k | 0 <= k < i :: !Looses(steps[k])) ==> Times(h.appended, b) == Times(h.committed, b) + held)
  {
    Reachable(ws, steps, i);
    assert ConservedAt(ws[i].s.staged, ws[i].h.appended, ws[i].h.committed, ws[i].h.dropped, b);
    if forall k | 0 <= k < i :: !Looses(steps[k]) {
      NothingLoose(ws, steps, i);
    }
  }

  /** A popped list that is committed is in HEAD, text for text. */
  lemma PopReachesHead(s: State, b: BatchId, loose: set<Path>)
    requires Covered(s, loose)
    ensures var repo' := Commit(s.repo, GetList(s.staged, b)).0;
      forall p | p in GetList(s.staged, b) :: p in repo'.head && p in repo'.tree && repo'.head[p] == repo'.tree[p]
  {
    CommitCleans(s.repo, GetList(s.staged, b), loose);
  }

  /** The path was counted as committed once more. */
  ghost predicate Grows(before: Tally, after: Tally, b: BatchId, p: Path) {
    Times(after, b)[p] > Times(before, b)[p]
  }

  ghost predicate InHead(repo: Repo, p: Path) {
    p in repo.head && p in repo.tree && repo.head[p] == repo.tree[p]
  }

  /** If the step counted the path as committed, HEAD holds the text the path has on disk. */
  ghost predicate Delivered(w: World, w': World, b: BatchId, p: Path) {
    Grows(w.h.committed, w'.h.committed, b, p) ==> InHead(w'.s.repo, p)
  }

  lemma PersistInHead(s: State, res: Result, now: Time, loose: set<Path>)
    requires Covered(s, loose) && Closes(s, res)
    ensures forall p :: p in PoppedBy(s, res) ==> InHead(Persist(s, res, now).repo, p)
  {
    RecordedCovered(s, res, loose);
    PopReachesHead(Recorded(s, res), s.db.runs[res.run].batch.value, loose);
  }

  lemma PersistDelivers(w: World, res: Result, now: Time, b: BatchId, p: Path)
    requires Inv(w)
    ensures Delivered(w, AfterPersist(w, res, now), b, p) == true
  {
    if Closes(w.s, res) {
      PersistInHead(w.s, res, now, w.h.loose);
      PlusGrows(w.h.committed, BatchIdOf(w, res.run), PoppedBy(w.s, res), b, p);
    }
  }

  lemma CrashDelivers(w: World, res: Result, how: Crash, now: Time, b: BatchId, p: Path)
    requires Inv(w) && MayCrash(w.s, res, how) == true
    ensures Delivered(w, AfterCrash(w, res, how, now), b, p) == true
  {
    if how.AfterCommit? {
      CommittedCrash(w, res, now);
      PersistInHead(w.s, res, now, w.h.loose);
      PlusGrows(w.h.committed, BatchIdOf(w, res.run), PoppedBy(w.s, res), b, p);
    }
  }

  /** Raising after the commit keeps the files of the handler that returned, and counts the same paths. */
  lemma CommittedCrash(w: World, res: Result, now: Time)
    requires MayCrash(w.s, res, AfterCommit)
    ensures Closes(w.s, res)
    ensures var w' := AfterCrash(w, res, AfterCommit, now);
      && w'.s.repo == Persist(w.s, res, now).repo
      && w'.h.committed == Plus(w.h.committed, BatchIdOf(w, res.run), PoppedBy(w.s, res))
  {
  }

  lemma PlusGrows(t: Tally, b': BatchId, ps: multiset<Path>, b: BatchId, p: Path)
    ensures Grows(t, Plus(t, b', ps), b, p) == true ==> p in ps
  {
  }

  lemma ReapDelivers(w: World, b': BatchId, now: Time, b: BatchId, p: Path)
    requires Inv(w) && b' in w.s.db.batches
    ensures Delivered(w, AfterReap(w, b', now), b, p) == true
  {
    PopReachesHead(w.s, b', w.h.loose);
  }

  lemma ReapCrashDelivers(w: World, b': BatchId, committed: bool, added: bool, now: Time, b: BatchId, p: Path)
    requires Inv(w) && b' in w.s.db.batches
    ensures Delivered(w, AfterReapCrash(w, b', committed, added, now), b, p) == true
  {
    PopReachesHead(w.s, b', w.h.loose);
  }

  lemma SameDelivers(w: World, w': World, b: BatchId, p: Path)
    requires w'.h.committed == w.h.committed
    ensures Delivered(w, w', b, p) == true
  {
  }

  lemma StepDelivers(w: World, step: Step, b: BatchId, p: Path)
    requires Inv(w) && Enabled(w, step)
    ensures Delivered(w, Apply(w, step), b, p) == true
  {
    if IsRecorders(step) {
      RecorderDelivers(w, step, b, p);
    } else {
      OthersKeepFiles(w, step);
      SameDelivers(w, Apply(w, step), b, p);
    }
  }

  lemma RecorderDelivers(w: World, step: Step, b: BatchId, p: Path)
    requires Inv(w) && Enabled(w, step) && IsRecorders(step)
    ensures Delivered(w, Recording(w, step), b, p) == true
  {
    match step
    case PersistResult(res, now) => PersistDelivers(w, res, now, b, p);
    case PersistRaises(res, how, now) => CrashDelivers(w, res, how, now, b, p);
    case ReapBatch(b', now) => ReapDelivers(w, b', now, b, p);
    case ReapRaises(b', committed, added, now) => ReapCrashDelivers(w, b', committed, added, now, b, p);
    case RestartRecorder => SameDelivers(w, AfterRestart(w), b, p);
  }

  /** Counting a path as committed is no empty word: at that step HEAD holds the text the path has on disk. */
  lemma CommittedReachesHead(ws: seq<World>, steps: seq<Step>, i: nat, b: BatchId, p: Path)
    requires Execution(ws, steps) && i < |steps|
    requires Times(ws[i + 1].h.committed, b)[p] > Times(ws[i].h.committed, b)[p]
    ensures InHead(ws[i + 1].s.repo, p)
  {
    Reachable(ws, steps, i);
    assert StepAt(ws, steps, i);
    StepDelivers(ws[i], steps[i], b, p);
  }

  // ----- the sha of a batch -----

  /** The step closes the batch with a commit that returned the sha. */
  ghost predicate CommitsAs(w: World, step: Step, b: BatchId, sha: Sha) {
    match step
    case PersistResult(res, _) =>
      && Closes(w.s, res) && w.s.db.runs[res.run].batch == Some(b)
      && var s := Recorded(w.s, res); Commit(s.repo, GetList(s.staged, b)).1 == Some(sha)
    case ReapBatch(b', _) => b' == b && b in w.s.db.batches && Commit(w.s.repo, GetList(w.s.staged, b)).1 == Some(sha)
    case _ => false
  }

  /** Batch and runs carry the sha. */
  ghost predicate Stamped(db: Db, b: BatchId, sha: Sha) {
    && b in db.batches && db.batches[b].commitSha == Some(sha) && !IsOpen(db.batches[b])
    && forall r | r in db.runs && db.runs[r].batch == Some(b) :: db.runs[r].commitSha == Some(sha)
  }

  lemma BalancedStamped(db: Db, late: map<BatchId, nat>, b: BatchId, sha: Sha)
    requires DbBalanced(db, late) && b in db.batches && db.batches[b].commitSha == Some(sha)
    ensures Stamped(db, b, sha)
  {
    assert Balanced(db.runs, b, db.batches[b], GetCount(late, b));
  }

  lemma PersistCommitsAs(s: State, res: Result, now: Time, b: BatchId, sha: Sha)
    requires Closes(s, res) && s.db.runs[res.run].batch == Some(b)
    requires var s1 := Recorded(s, res); Commit(s1.repo, GetList(s1.staged, b)).1 == Some(sha)
    ensures b in Persist(s, res, now).db.batches && Persist(s, res, now).db.batches[b].commitSha == Some(sha)
  {
  }

  /** When the commit that closes a batch returns a sha, the batch and each of its runs carry it from then on. */
  lemma CommitStampsRuns(ws: seq<World>, steps: seq<Step>, i: nat, j: nat, b: BatchId, sha: Sha)
    requires Execution(ws, steps) && i < |steps| && i < j < |ws| && CommitsAs(ws[i], steps[i], b, sha)
    ensures Stamped(ws[j].s.db, b, sha)
  {
    StampedAt(ws, steps, i, b, sha);
    Later(ws, steps, i + 1, j);
    Reachable(ws, steps, j);
    assert BatchEvolves(ws[i + 1].s.db.batches[b], ws[j].s.db.batches[b]);
    BalancedStamped(ws[j].s.db, ws[j].h.late, b, sha);
  }

  lemma StampedAt(ws: seq<World>, steps: seq<Step>, i: nat, b: BatchId, sha: Sha)
    requires Execution(ws, steps) && i < |steps| && CommitsAs(ws[i], steps[i], b, sha)
    ensures Stamped(ws[i + 1].s.db, b, sha)
  {
    Reachable(ws, steps, i + 1);
    assert StepAt(ws, steps, i);
    StepCommitsAs(ws[i], steps[i], ws[i + 1], b, sha);
    BalancedStamped(ws[i + 1].s.db, ws[i + 1].h.late, b, sha);
  }

  lemma StepCommitsAs(w: World, step: Step, w': World, b: BatchId, sha: Sha)
    requires Next(w, step, w') && CommitsAs(w, step, b, sha)
    ensures b in w'.s.db.batches && w'.s.db.batches[b].commitSha == Some(sha)
  {
    if step.PersistResult? {
      PersistCommitsAs(w.s, step.res, step.now, b, sha);
    }
  }

  // ----- orderly executions -----

  /** A result that comes for a run of a finished batch. */
  predicate IsLate(db: Db, res: Result) {
    && res.run in db.runs && db.runs[res.run].batch.Some?
    && db.runs[res.run].batch.value in db.batches && !IsOpen(db.batches[db.runs[res.run].batch.value])
  }

  /** Nobody cancels or purges, nothing lets go of a path, and no result comes late. */
  predicate Orderly(w: World, step: Step) {
    && !Looses(step) && !step.CancelBatch? && !step.PurgeCancel?
    && (step.PersistResult? || step.PersistRaises? ==> !IsLate(w.s.db, step.res))
  }

  /** Only open batches have paths waiting. */
  ghost predicate OpenOnly(s: State) {
    forall b | b in s.staged :: b in s.db.batches && IsOpen(s.db.batches[b])
  }

  lemma PersistOpenOnly(s: State, res: Result, now: Time)
    requires OpenOnly(s) && !IsLate(s.db, res)
    ensures OpenOnly(Persist(s, res, now)) == true
  {
    if !Discards(s, res) {
      RecordedOpenOnly(s, res);
    }
  }

  lemma RecordedOpenOnly(s: State, res: Result)
    requires OpenOnly(s) && !Discards(s, res) && !IsLate(s.db, res)
    ensures OpenOnly(Recorded(s, res))
    ensures Recorded(s, res).db.batches.Keys == s.db.batches.Keys
    ensures forall b | b in s.db.batches :: IsOpen(Recorded(s, res).db.batches[b]) == IsOpen(s.db.batches[b])
  {
  }

  lemma CrashOpenOnly(s: State, res: Result, how: Crash, now: Time)
    requires OpenOnly(s) && MayCrash(s, res, how) && !how.DuringStage? && !how.DuringCommit? && !IsLate(s.db, res)
    ensures OpenOnly(Crashed(s, res, how, now)) == true
  {
    if !Discards(s, res) {
      RecordedOpenOnly(s, res);
    }
  }

  lemma StaysOpenOnly(w: World, step: Step)
    requires Inv(w) && Enabled(w, step) && Orderly(w, step) == true && OpenOnly(w.s) == true
    ensures OpenOnly(Apply(w, step).s) == true
  {
    if IsMove(step) {
      MoveStep(w, step);
    } else if IsRecorders(step) {
      RecorderOpenOnly(w, step);
    } else {
      SessionOpenOnly(w, step);
    }
  }

  lemma RecorderOpenOnly(w: World, step: Step)
    requires Enabled(w, step) && IsRecorders(step) && Orderly(w, step) == true && OpenOnly(w.s) == true
    ensures OpenOnly(Recording(w, step).s) == true
  {
    match step
    case PersistResult(res, now) => PersistOpenOnly(w.s, res, now);
    case PersistRaises(res, how, now) => CrashOpenOnly(w.s, res, how, now);
    case ReapBatch(b, now) => ReapOpenOnly(w.s, b, now);
    case ReapRaises(b, committed, added, now) => ReapCrashOpenOnly(w.s, b, committed, added, now);
  }

  lemma ReapOpenOnly(s: State, b: BatchId, now: Time)
    requires OpenOnly(s) && b in s.db.batches
    ensures OpenOnly(Reap(s, b, now)) == true
  {
  }

  lemma ReapCrashOpenOnly(s: State, b: BatchId, committed: bool, added: bool, now: Time)
    requires OpenOnly(s) && b in s.db.batches
    ensures OpenOnly(ReapCrashed(s, b, committed, added, now)) == true
  {
  }

  lemma SessionOpenOnly(w: World, step: Step)
    requires Inv(w) && Enabled(w, step) && !IsMove(step) && !IsRecorders(step)
    requires !step.CancelBatch? && !step.PurgeCancel? && OpenOnly(w.s)
    ensures OpenOnly(Serving(w, step).s) == true
  {
    match step
    case FireCommit(b) => FireOpenOnly(w, b);
    case FirePublish(b, at) => assert AfterPublish(w, b, at).s == w.s;
    case FireBegin(b, kind, slots, at) => assert Fire(w, b, kind, slots, false, at).s == w.s;
    case FireRefuse(b, kind, slots, at) => assert Fire(w, b, kind, slots, true, at).s == w.s;
    case FireAbort(b) => assert AfterAbort(w, b).s == w.s;
  }

  lemma FireOpenOnly(w: World, b: BatchId)
    requires Inv(w) && b in w.txns && OpenOnly(w.s)
    ensures OpenOnly(AfterFire(w, b).s) == true
  {
    assert b !in w.s.db.batches;
  }

  lemma {:induction false} OrderlyOpenOnly(ws: seq<World>, steps: seq<Step>, i: nat)
    requires Execution(ws, steps) && i < |ws|
    requires forall k | 0 <= k < i :: Orderly(ws[k], steps[k])
    ensures OpenOnly(ws[i].s) == true
  {
    if i > 0 {
      OrderlyOpenOnly(ws, steps, i - 1);
      Reachable(ws, steps, i - 1);
      assert StepAt(ws, steps, i - 1);
      assert Orderly(ws[i - 1], steps[i - 1]) == true;
      StaysOpenOnly(ws[i - 1], steps[i - 1]);
    }
  }

  /** In an orderly execution no finished batch has a path waiting; so whenever every batch is finished, everything
      that was captured is committed: HEAD is the working tree. */
  lemma AllFinishedMeansClean(ws: seq<World>, steps: seq<Step>, i: nat)
    requires Execution(ws, steps) && i < |ws|
    requires forall k | 0 <= k < i :: Orderly(ws[k], steps[k])
    ensures forall b | b in ws[i].s.staged :: b in ws[i].s.db.batches && IsOpen(ws[i].s.db.batches[b])
    ensures (forall b | b in ws[i].s.db.batches :: !IsOpen(ws[i].s.db.batches[b])) ==> ws[i].s.repo.head == ws[i].s.repo.tree
  {
    OrderlyOpenOnly(ws, steps, i);
    forall k | 0 <= k < i ensures !Looses(steps[k]) {
      assert Orderly(ws[k], steps[k]);
    }
    DirtyIsListed(ws, steps, i);
  }
}
