/**
 * The staging list as a write-back cache over HEAD: which paths may be dirty, and where every staged
 * path goes.
 */
module Staging {
  import opened Basics
  import opened GitStore
  import opened Ledger

  type Staged = map<BatchId, seq<Path>>
  type Tally = map<BatchId, multiset<Path>>

  function Listed(staged: Staged): set<Path> {
    set b, p | b in staged && p in staged[b] :: p
  }

  /**
   * Every dirty path is listed for some batch, except the `loose` ones: those a failed write, a failed
   * commit or a recorder restart let go of.
   */
  ghost predicate Covered(s: State, loose: set<Path>) {
    && (forall b, p | b in s.staged && p in s.staged[b] :: p in s.repo.tree)
    && IndexClean(s.repo, loose)
    && Dirty(s.repo) <= loose + Listed(s.staged)
  }

  lemma ListedPop(staged: Staged, b: BatchId)
    ensures Listed(staged) == Listed(staged - {b}) + Elements(GetList(staged, b))
  {
    forall p ensures p in Listed(staged) <==> p in Listed(staged - {b}) || p in GetList(staged, b) {
      if p in Listed(staged) {
        var b' :| b' in staged && p in staged[b'];
        assert b' != b ==> b' in staged - {b} && p in (staged - {b})[b'];
      }
      if p in Listed(staged - {b}) {
        var b' :| b' in staged - {b} && p in (staged - {b})[b'];
        assert b' in staged && p in staged[b'];
      }
      if p in GetList(staged, b) {
        assert b in staged && p in staged[b];
      }
    }
  }

  /** Popping a batch's paths and committing them. */
  lemma PopCommitCovered(s: State, b: BatchId, loose: set<Path>)
    requires Covered(s, loose)
    ensures Covered(s.(repo := Commit(s.repo, GetList(s.staged, b)).0, staged := s.staged - {b}), loose)
  {
    CommitCleans(s.repo, GetList(s.staged, b), loose);
    ListedPop(s.staged, b);
  }

  /** Popping them and failing to commit sets exactly those paths loose. */
  lemma PopLoseCovered(s: State, b: BatchId, added: bool, loose: set<Path>)
    requires Covered(s, loose)
    ensures Covered(CommitLost(s, b, added), loose + Elements(GetList(s.staged, b)))
  {
    ListedPop(s.staged, b);
    var s' := CommitLost(s, b, added);
    assert Dirty(s'.repo) == Dirty(s.repo);
  }

  /** Writing and committing one file at once. */
  lemma WriteCovered(s: State, path: Path, text: string, loose: set<Path>)
    requires Covered(s, loose)
    ensures Covered(s.(repo := Write(s.repo, path, text).0), loose)
  {
    var repo' := Write(s.repo, path, text).0;
    if Differs(s.repo, path, text) {
      forall p | p != path ensures Get(repo'.tree, p) == Get(s.repo.tree, p) && Get(repo'.head, p) == Get(s.repo.index, p) {}
      assert Get(repo'.tree, path) == Get(repo'.head, path) == Some(text);
      assert forall p :: Get(repo'.index, p) == Get(repo'.head, p);
    }
  }

  lemma CaptureFileCovered(s: State, res: Result, loose: set<Path>)
    requires Covered(s, loose)
    requires Captures(res) && res.run in s.db.runs
    ensures Covered(CaptureFile(s, res).0, loose)
  {
    if BatchOf(s.db, s.db.runs[res.run]).None? {
      WriteCovered(s, PathFor(s.db, res), res.configText.value, loose);
    } else {
      StagedFileCovered(s, res, loose);
    }
  }

  lemma StagedFileCovered(s: State, res: Result, loose: set<Path>)
    requires Covered(s, loose)
    requires Captures(res) && res.run in s.db.runs && BatchOf(s.db, s.db.runs[res.run]).Some?
    ensures Covered(CaptureFile(s, res).0, loose)
  {
    var s' := CaptureFile(s, res).0;
    var path, text, b := PathFor(s.db, res), res.configText.value, s.db.runs[res.run].batch.value;
    StageDirties(s.repo, path, text);
    if Differs(s.repo, path, text) {
      forall p | p in Listed(s.staged) || p == path ensures p in Listed(s'.staged) {
        if p == path {
          assert path in s'.staged[b];
        } else {
          var b' :| b' in s.staged && p in s.staged[b'];
          assert b' in s'.staged && p in s'.staged[b'];
        }
      }
    }
  }

  lemma RecordedCovered(s: State, res: Result, loose: set<Path>)
    requires Covered(s, loose) && !Discards(s, res)
    ensures Covered(Recorded(s, res), loose)
  {
    if Captures(res) {
      CaptureFileCovered(Count(s, res), res, loose);
    }
  }

  lemma PersistCovered(s: State, res: Result, now: Time, loose: set<Path>)
    requires Covered(s, loose)
    ensures Covered(Persist(s, res, now), loose)
  {
    if !Discards(s, res) {
      RecordedCovered(s, res, loose);
      if Closes(s, res) {
        PopCommitCovered(Recorded(s, res), s.db.runs[res.run].batch.value, loose);
      }
    }
  }

  // ----- what a raising handler leaves behind -----

  /** Dirty paths that no batch lists: nothing is due to commit them. */
  function Unlisted(s: State): set<Path> {
    Dirty(s.repo) - Listed(s.staged)
  }

  /** A commit that raises leaves behind, of the paths it was to commit, exactly those that differ from HEAD and that
      no other batch lists. */
  lemma CommitLostLeaves(s: State, b: BatchId, added: bool)
    ensures var left := set p | p in GetList(s.staged, b) && p in Dirty(s.repo) && p !in Listed(s.staged - {b});
      Unlisted(CommitLost(s, b, added)) == Unlisted(s) + left
  {
    var s', left := CommitLost(s, b, added), set p | p in GetList(s.staged, b) && p in Dirty(s.repo) && p !in Listed(s.staged - {b});
    ListedPop(s.staged, b);
    assert Dirty(s'.repo) == Dirty(s.repo);
    forall p ensures p in Unlisted(s') <==> p in Unlisted(s) || p in left {
      assert p in GetList(s.staged, b) <==> p in Elements(GetList(s.staged, b));
    }
  }

  /** A file write that raises leaves its path behind exactly when what it wrote differs from HEAD and no batch lists
      the path; no other path is affected. */
  lemma BrokenWriteLeaves(s: State, path: Path, partial: string)
    ensures var s' := s.(repo := s.repo.(tree := s.repo.tree[path := partial]));
      forall p :: p in Unlisted(s') <==>
        if p == path then Get(s.repo.head, p) != Some(partial) && p !in Listed(s.staged) else p in Unlisted(s)
  {
    var s' := s.(repo := s.repo.(tree := s.repo.tree[path := partial]));
    forall p | p != path ensures p in Dirty(s'.repo) <==> p in Dirty(s.repo) {
      assert Get(s'.repo.tree, p) == Get(s.repo.tree, p);
    }
  }

  /** So when the write of a capture raises, part of the text is in the file, and its path is left behind exactly then. */
  lemma WriteCrashLeaves(s: State, res: Result, partial: string, now: Time)
    requires MayCrash(s, res, DuringStage(partial))
    ensures var (s', path) := (Crashed(s, res, DuringStage(partial), now), PathFor(s.db, res));
      && Get(s'.repo.tree, path) == Some(partial) && s'.staged == s.staged && s'.db == s.db
      && forall p :: p in Unlisted(s') <==>
           if p == path then Get(s.repo.head, p) != Some(partial) && p !in Listed(s.staged) else p in Unlisted(s)
  {
    BrokenWriteLeaves(s, PathFor(s.db, res), partial);
  }

  /** After a commit that went through nothing it was handed is dirty. */
  lemma PopCommitLeaves(s: State, b: BatchId, loose: set<Path>)
    requires Covered(s, loose)
    ensures Elements(GetList(s.staged, b)) !! Dirty(Commit(s.repo, GetList(s.staged, b)).0)
  {
    CommitCleans(s.repo, GetList(s.staged, b), loose);
  }

  /** What a raising handler may leave dirty and unlisted. */
  function Loosened(s: State, res: Result, how: Crash): set<Path>
    requires MayCrash(s, res, how)
  {
    match how
    case DuringStage(_) => {PathFor(s.db, res)}
    case DuringCommit(_) => Elements(GetList(Recorded(s, res).staged, s.db.runs[res.run].batch.value))
    case _ => {}
  }

  lemma CrashedCovered(s: State, res: Result, how: Crash, now: Time, loose: set<Path>)
    requires Covered(s, loose) && MayCrash(s, res, how)
    ensures Covered(Crashed(s, res, how, now), loose + Loosened(s, res, how))
  {
    match how
    case BeforeStage =>
      assert loose + {} == loose;
    case DuringStage(partial) =>
      var s' := Crashed(s, res, how, now);
      forall p | p in Dirty(s'.repo) && p != PathFor(s.db, res) ensures p in Dirty(s.repo) {
        assert Get(s'.repo.tree, p) == Get(s.repo.tree, p);
      }
    case AfterStage =>
      RecordedCovered(s, res, loose);
      assert loose + {} == loose;
    case DuringCommit(added) =>
      RecordedCovered(s, res, loose);
      PopLoseCovered(Recorded(s, res), s.db.runs[res.run].batch.value, added, loose);
    case AfterCommit =>
      PersistCovered(s, res, now, loose);
      assert loose + {} == loose;
  }

  /** With nothing listed and nothing loose, HEAD is the working tree. */
  lemma DrainedMeansClean(s: State)
    requires Covered(s, {}) && Listed(s.staged) == {}
    ensures s.repo.tree == s.repo.head
  {
    forall p ensures Get(s.repo.tree, p) == Get(s.repo.head, p) {
      assert p !in Dirty(s.repo);
    }
    forall p ensures p in s.repo.tree <==> p in s.repo.head {
      assert Get(s.repo.tree, p) == Get(s.repo.head, p);
    }
    forall p | p in s.repo.tree ensures s.repo.tree[p] == s.repo.head[p] {
      assert Get(s.repo.tree, p) == Get(s.repo.head, p);
    }
  }

  // ----- conservation of staged paths -----

  function Times(t: Tally, b: BatchId): multiset<Path> {
    if b in t then t[b] else multiset{}
  }

  function Plus(t: Tally, b: BatchId, ps: multiset<Path>): Tally {
    t[b := Times(t, b) + ps]
  }

  /** What one result appends to the list of its batch: its path, when the file changed. */
  function AppendedBy(s: State, res: Result): multiset<Path> {
    if !Discards(s, res) && Captures(res) && Differs(s.repo, PathFor(s.db, res), res.configText.value)
    then multiset{PathFor(s.db, res)} else multiset{}
  }

  /** Whether persisting this result closes its batch. */
  predicate Closes(s: State, res: Result) {
    && !Discards(s, res) && BatchOf(s.db, s.db.runs[res.run]).Some?
    && IsFull(Recorded(s, res).db.batches[s.db.runs[res.run].batch.value])
  }

  /** What a persist that closes its batch pops. */
  function PoppedBy(s: State, res: Result): multiset<Path> {
    if Discards(s, res) || s.db.runs[res.run].batch.None? then multiset{}
    else multiset(GetList(Recorded(s, res).staged, s.db.runs[res.run].batch.value))
  }

  /** Each path ever appended for a batch is still held, was handed to a commit, or was dropped, and that once. */
  ghost predicate Conserved(staged: Staged, appended: Tally, committed: Tally, dropped: Tally) {
    forall b :: ConservedAt(staged, appended, committed, dropped, b)
  }

  ghost predicate ConservedAt(staged: Staged, appended: Tally, committed: Tally, dropped: Tally, b: BatchId) {
    Times(appended, b) == Times(committed, b) + Times(dropped, b) + multiset(GetList(staged, b))
  }

  /** The list after a result is recorded: one more path exactly when the file changed. */
  lemma RecordedStaged(s: State, res: Result)
    requires !Discards(s, res) && BatchOf(s.db, s.db.runs[res.run]).Some?
    ensures var b := s.db.runs[res.run].batch.value;
      Recorded(s, res).staged
      == if AppendedBy(s, res) == multiset{} then s.staged
         else s.staged[b := GetList(s.staged, b) + [PathFor(s.db, res)]]
  {
    assert PathFor(s.db, res) in multiset{PathFor(s.db, res)};
  }

  lemma AppendAt(staged: Staged, b: BatchId, path: Path, appended: Tally, committed: Tally, dropped: Tally, b': BatchId)
    requires ConservedAt(staged, appended, committed, dropped, b')
    ensures ConservedAt(staged[b := GetList(staged, b) + [path]], Plus(appended, b, multiset{path}), committed, dropped, b')
  {
    if b' == b {
      var held := GetList(staged, b);
      var held' := held + [path];
      assert multiset(held') == multiset(held) + multiset{path};
      assert GetList(staged[b := held'], b) == held';
      assert Times(Plus(appended, b, multiset{path}), b) == Times(appended, b) + multiset{path};
    }
  }

  lemma RecordedConserves(s: State, res: Result, appended: Tally, committed: Tally, dropped: Tally)
    requires Conserved(s.staged, appended, committed, dropped)
    requires !Discards(s, res) && BatchOf(s.db, s.db.runs[res.run]).Some?
    ensures Conserved(Recorded(s, res).staged,
                      Plus(appended, s.db.runs[res.run].batch.value, AppendedBy(s, res)), committed, dropped)
  {
    var b := s.db.runs[res.run].batch.value;
    RecordedStaged(s, res);
    if AppendedBy(s, res) == multiset{} {
      forall b' ensures ConservedAt(s.staged, Plus(appended, b, multiset{}), committed, dropped, b') {
        assert ConservedAt(s.staged, appended, committed, dropped, b');
      }
    } else {
      var path := PathFor(s.db, res);
      var staged' := s.staged[b := GetList(s.staged, b) + [path]];
      var appended' := Plus(appended, b, multiset{path});
      forall b' ensures ConservedAt(staged', appended', committed, dropped, b') {
        assert ConservedAt(s.staged, appended, committed, dropped, b');
        AppendAt(s.staged, b, path, appended, committed, dropped, b');
      }
    }
  }

  /** A popped list counts as committed. */
  lemma PopCommits(staged: Staged, b: BatchId, appended: Tally, committed: Tally, dropped: Tally)
    requires Conserved(staged, appended, committed, dropped)
    ensures Conserved(staged - {b}, appended, Plus(committed, b, multiset(GetList(staged, b))), dropped)
  {
    var committed' := Plus(committed, b, multiset(GetList(staged, b)));
    forall b' ensures ConservedAt(staged - {b}, appended, committed', dropped, b') {
      assert ConservedAt(staged, appended, committed, dropped, b');
    }
  }

  /** Or it counts as dropped. */
  lemma PopDrops(staged: Staged, b: BatchId, appended: Tally, committed: Tally, dropped: Tally)
    requires Conserved(staged, appended, committed, dropped)
    ensures Conserved(staged - {b}, appended, committed, Plus(dropped, b, multiset(GetList(staged, b))))
  {
    var dropped' := Plus(dropped, b, multiset(GetList(staged, b)));
    forall b' ensures ConservedAt(staged - {b}, appended, committed, dropped', b') {
      assert ConservedAt(staged, appended, committed, dropped, b');
    }
  }
}
