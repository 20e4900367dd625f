/** Executions of one batch with one run: how they begin, and how they go on step by step. */
module OneRun {
  import opened Basics
  import opened GitStore
  import opened Ledger
  import opened Lifecycle

  function TheSlot(): Slot { Slot(1, 7, true) }

  function TheRun(): Run { Run(Some(1), 7, Pending, None, None, None) }

  function TheBatch(kind: Kind): Batch { Batch(kind, 1, 0, 0, 0, None, None) }

  /** The world while the one dispatch is uncommitted, before and after its message is published. */
  ghost predicate Dispatching(w0: World, w: World, kind: Kind, todo: seq<Slot>) {
    && w.s == w0.s && w.txns == map[1 := Txn(TheBatch(kind), map[1 := TheRun()], todo)]
    && Messages(w, if todo == [] then multiset{1} else multiset{}, multiset{}, multiset{})
  }

  /** The tables once the dispatch is committed; nothing else has changed since w0. */
  ghost predicate Tables(w0: World, w: World, run: Run, batch: Batch) {
    w.s == w0.s.(db := w0.s.db.(runs := map[1 := run], batches := map[1 := batch]))
  }

  ghost predicate Messages(w: World, jobs: multiset<RunId>, held: multiset<RunId>, results: multiset<RunId>) {
    w.jobs == jobs && w.held == held && w.results == results
  }

  // ----- executions -----

  /** The steps lead from the first world to w. */
  ghost predicate Reaches(ws: seq<World>, steps: seq<Step>, w: World) {
    Execution(ws, steps) && ws[|steps|] == w
  }

  lemma Starts(w: World) returns (ws: seq<World>, steps: seq<Step>)
    requires Init(w)
    ensures ws == [w] && steps == [] && Reaches(ws, steps, w) == true
  {
    ws, steps := [w], [];
  }

  /** An execution goes on by one step. */
  lemma GoesOn(ws: seq<World>, steps: seq<Step>, w: World, step: Step, w': World) returns (ws': seq<World>, steps': seq<Step>)
    requires Reaches(ws, steps, w) == true && Next(w, step, w') == true
    ensures steps' == steps + [step] && Reaches(ws', steps', w') == true
  {
    ws', steps' := ws + [w'], steps + [step];
    forall i | 0 <= i < |steps'| ensures StepAt(ws', steps', i) == true {
      if i < |steps| {
        assert StepAt(ws, steps, i);
        assert ws'[i] == ws[i] && ws'[i + 1] == ws[i + 1] && steps'[i] == steps[i];
      }
    }
  }

  // ----- the beginning -----

  lemma Begun(w0: World, kind: Kind) returns (w: World)
    requires Init(w0)
    ensures Next(w0, FireBegin(1, kind, [TheSlot()], 0), w) == true
    ensures Dispatching(w0, w, kind, [TheSlot()])
  {
    var slots := [TheSlot()];
    w := Fire(w0, 1, kind, slots, false, 0);
    assert slots[0].run == 1;
    assert SlotRuns(slots) == {1};
    assert NewRuns(1, slots, false, 0) == map[1 := TheRun()];
  }

  lemma Published(w0: World, w: World, kind: Kind) returns (w': World)
    requires Init(w0) && Dispatching(w0, w, kind, [TheSlot()])
    ensures Next(w, FirePublish(1, 0), w') == true && Dispatching(w0, w', kind, [])
  {
    var slots := [TheSlot()];
    assert slots[0] == TheSlot() && slots[1..] == [];
    w' := AfterPublish(w, 1, 0);
    assert w'.txns == map[1 := Txn(TheBatch(kind), map[1 := TheRun()], [])];
  }

  lemma Stored(w0: World, w: World, kind: Kind) returns (w': World)
    requires Init(w0) && Dispatching(w0, w, kind, [])
    ensures Next(w, FireCommit(1), w') == true && Tables(w0, w', TheRun(), TheBatch(kind))
    ensures Messages(w', multiset{1}, multiset{}, multiset{})
  {
    w' := AfterFire(w, 1);
  }

  function SendingSteps(kind: Kind): seq<Step> {
    [FireBegin(1, kind, [TheSlot()], 0), FirePublish(1, 0), FireCommit(1)]
  }

  /** A batch of one run is dispatched. */
  lemma Sent(w0: World, kind: Kind) returns (ws: seq<World>, steps: seq<Step>, w: World)
    requires Init(w0)
    ensures Reaches(ws, steps, w) == true && steps == SendingSteps(kind)
    ensures Tables(w0, w, TheRun(), TheBatch(kind)) && Messages(w, multiset{1}, multiset{}, multiset{})
  {
    ws, steps := Starts(w0);
    var w1 := Begun(w0, kind);
    ws, steps := GoesOn(ws, steps, w0, FireBegin(1, kind, [TheSlot()], 0), w1);
    var w2 := Published(w0, w1, kind);
    ws, steps := GoesOn(ws, steps, w1, FirePublish(1, 0), w2);
    w := Stored(w0, w2, kind);
    ws, steps := GoesOn(ws, steps, w2, FireCommit(1), w);
  }

  // ----- messages -----

  lemma Delivered(ws: seq<World>, steps: seq<Step>, w: World) returns (ws': seq<World>, steps': seq<Step>, w': World)
    requires Reaches(ws, steps, w) == true && Messages(w, multiset{1}, multiset{}, multiset{})
    ensures Reaches(ws', steps', w') == true && steps' == steps + [Deliver(1)]
    ensures w'.s == w.s && Messages(w', multiset{}, multiset{1}, multiset{})
  {
    w' := Move(w, Deliver(1));
    ws', steps' := GoesOn(ws, steps, w, Deliver(1), w');
  }

  lemma Answered(ws: seq<World>, steps: seq<Step>, w: World) returns (ws': seq<World>, steps': seq<Step>, w': World)
    requires Reaches(ws, steps, w) == true && Messages(w, multiset{}, multiset{1}, multiset{})
    ensures Reaches(ws', steps', w') == true && steps' == steps + [WorkerPublish(1)]
    ensures w'.s == w.s && Messages(w', multiset{}, multiset{}, multiset{1})
  {
    w' := Move(w, WorkerPublish(1));
    ws', steps' := GoesOn(ws, steps, w, WorkerPublish(1), w');
  }

  // ----- the recorder -----

  lemma Persisted(ws: seq<World>, steps: seq<Step>, w: World, res: Result, now: Time)
    returns (ws': seq<World>, steps': seq<Step>, w': World)
    requires Reaches(ws, steps, w) == true && res.run in w.results
    ensures Reaches(ws', steps', w') == true && steps' == steps + [PersistResult(res, now)]
    ensures w'.s == Persist(w.s, res, now)
  {
    w' := AfterPersist(w, res, now);
    ws', steps' := GoesOn(ws, steps, w, PersistResult(res, now), w');
  }

  lemma Raises(ws: seq<World>, steps: seq<Step>, w: World, res: Result, how: Crash, now: Time)
    returns (ws': seq<World>, steps': seq<Step>, w': World)
    requires Reaches(ws, steps, w) == true && res.run in w.results && MayCrash(w.s, res, how) == true
    ensures Reaches(ws', steps', w') == true && steps' == steps + [PersistRaises(res, how, now)]
    ensures w'.s == Crashed(w.s, res, how, now)
  {
    w' := AfterCrash(w, res, how, now);
    ws', steps' := GoesOn(ws, steps, w, PersistRaises(res, how, now), w');
  }

  // ----- the reaper -----

  /** The reaper finds the run pending and nothing staged. */
  lemma ReapTables(s: State, run: Run, batch: Batch, now: Time)
    requires s.db.runs == map[1 := run] && s.db.batches == map[1 := batch] && s.staged == map[]
    requires run.batch == Some(1) && run.status == Pending
    ensures Reap(s, 1, now) == s.(db := s.db.(
      runs := map[1 := run.(status := Failed, finishedAt := Some(now))],
      batches := map[1 := batch.(failed := batch.failed + 1, finishedAt := Some(now))]))
  {
    assert Unfinished(s.db.runs, 1) == {1};
    assert Settle(s.db.runs, {1}, Failed, now) == map[1 := run.(status := Failed, finishedAt := Some(now))];
    assert GetList(s.staged, 1) == [];
    assert s.staged - {1} == s.staged;
  }

  lemma Reaped(ws: seq<World>, steps: seq<Step>, w: World, now: Time)
    returns (ws': seq<World>, steps': seq<Step>, w': World)
    requires Reaches(ws, steps, w) == true && 1 in w.s.db.batches && IsOpen(w.s.db.batches[1])
    ensures Reaches(ws', steps', w') == true && steps' == steps + [ReapBatch(1, now)]
    ensures w'.s == Reap(w.s, 1, now) && Messages(w', w.jobs, w.held, w.results)
  {
    w' := AfterReap(w, 1, now);
    ws', steps' := GoesOn(ws, steps, w, ReapBatch(1, now), w');
  }
}
