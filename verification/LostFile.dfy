/**
 * A raising commit can leave a captured file behind: an execution after which every batch is finished, the
 * file on disk differs from HEAD, and no batch lists its path.
 */
module LostFile {
  import opened Basics
  import opened GitStore
  import opened Ledger
  import opened Staging
  import opened Lifecycle
  import opened OneRun

  function Backup1(text: string): Result { Result(1, 7, "core1", Backup, true, None, Some(text)) }

  /** Where the capture goes, and a text that is new there. */
  function Target(s: State): Path { PathFor(s.db, Backup1("")) }

  function NewText(s: State): string {
    if Differs(s.repo, Target(s), "a") then "a" else "b"
  }

  function LosingSteps(text: string): seq<Step> {
    SendingSteps(Backup) + [Deliver(1)] + [WorkerPublish(1)]
    + [PersistRaises(Backup1(text), DuringCommit(false), 1)] + [ReapBatch(1, 1800)]
  }

  /** The new text changes the file, and leaves it different from a HEAD that equals the tree. */
  lemma NewTextDiffers(s: State)
    requires s.repo.tree == s.repo.head
    ensures Differs(s.repo, Target(s), NewText(s)) && Get(s.repo.head, Target(s)) != Some(NewText(s))
  {
    assert ReadText("a") == "a" && ReadText("b") == "b";
  }

  /** The handler stages the file, pops its path, and raises in the commit. */
  lemma CrashTables(s: State, text: string)
    requires s.db.runs == map[1 := TheRun()] && s.db.batches == map[1 := TheBatch(Backup)] && s.staged == map[]
    requires Differs(s.repo, Target(s), text)
    ensures MayCrash(s, Backup1(text), DuringCommit(false)) == true
    ensures Crashed(s, Backup1(text), DuringCommit(false), 1) == s.(repo := s.repo.(tree := s.repo.tree[Target(s) := text]))
  {
    var res := Backup1(text);
    var s2 := Recorded(s, res);
    assert Count(s, res).db.batches[1] == TheBatch(Backup).(succeeded := 1);
    assert s2.staged.Keys == {1};
    assert s2.staged - {1} == map[];
  }

  /** The repository holds the new text on disk and nothing else changed. */
  ghost predicate Written(w0: World, w: World) {
    && w.s.repo == w0.s.repo.(tree := w0.s.repo.tree[Target(w0.s) := NewText(w0.s)])
    && w.s.staged == map[] && w.s.db.devices == w0.s.db.devices
  }

  /** The reaper then finishes the batch, with nothing to commit. */
  lemma ReapedTables(s: State)
    requires s.db.runs == map[1 := TheRun()] && s.db.batches == map[1 := TheBatch(Backup)] && s.staged == map[]
    ensures var s' := Reap(s, 1, 1800);
      && s'.repo == s.repo && s'.staged == map[] && s'.db.devices == s.db.devices
      && s'.db.batches.Keys == {1} && !IsOpen(s'.db.batches[1])
  {
    OneRun.ReapTables(s, TheRun(), TheBatch(Backup), 1800);
  }

  lemma WrittenIsLeft(w0: World, w: World)
    requires Init(w0) && Written(w0, w)
    ensures Target(w0.s) in Unlisted(w.s)
  {
    NewTextDiffers(w0.s);
    var path := Target(w0.s);
    assert Get(w.s.repo.tree, path) == Some(NewText(w0.s));
    assert Listed(w.s.staged) == {};
  }

  /** From any initial state: a backup whose commit raises, and the reaper; the path is left behind for good. */
  lemma RaisingCommitLosesFile(w0: World) returns (ws: seq<World>, steps: seq<Step>)
    requires Init(w0)
    ensures Execution(ws, steps) == true && steps == LosingSteps(NewText(w0.s))
    ensures var s := ws[|steps|].s;
      && (forall b | b in s.db.batches :: !IsOpen(s.db.batches[b]))
      && Target(w0.s) in Unlisted(s)
  {
    var w;
    ws, steps, w := Sent(w0, Backup);
    ws, steps, w := Delivered(ws, steps, w);
    ws, steps, w := Answered(ws, steps, w);
    var text := NewText(w0.s);
    NewTextDiffers(w0.s);
    CrashTables(w.s, text);
    ws, steps, w := Raises(ws, steps, w, Backup1(text), DuringCommit(false), 1);
    ReapedTables(w.s);
    ws, steps, w := Reaped(ws, steps, w, 1800);
    WrittenIsLeft(w0, w);
  }
}
