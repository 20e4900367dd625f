/**
 * The batch/run protocol as a transition system: dispatcher, job queue, workers, result queue, recorder,
 * reaper and the two web handlers, in every interleaving. Each handler is one atomic step, except that a
 * dispatch publishes its messages before its transaction commits and a purge reads, deletes and cancels
 * in three steps.
 */
module Lifecycle {
  import opened Basics
  import opened GitStore
  import opened Ledger
  import opened Books
  import opened Staging

  /** One device of a dispatch: its run, and whether a credential was found for it. */
  datatype Slot = Slot(run: RunId, device: DeviceId, hasCredential: bool)

  /** An uncommitted dispatch: its rows, and the slots still to publish. */
  datatype Txn = Txn(batch: Batch, runs: Runs, todo: seq<Slot>)

  /** What happened so far; no handler reads it. */
  datatype History = History(
    issued: set<RunId>,           // run ids ever allocated: the sequence never repeats one
    batches: set<BatchId>,        // batch ids ever allocated
    published: set<RunId>,        // runs a job message was sent for
    lost: set<RunId>,             // runs whose message vanished without a result being persisted
    reaped: set<RunId>,           // runs the reaper failed
    late: map<BatchId, nat>,      // results counted on runs that had already failed
    loose: set<Path>,             // paths let go by a failed write, a failed commit or a restart
    appended: Tally,              // paths appended to the staging list, per batch
    committed: Tally,             // paths popped from it and handed to a commit that went through
    dropped: Tally)               // paths popped from it and lost: the commit raised, or the recorder restarted

  /** A message is in the job queue, in a worker, or in the result queue; it carries its run's id. */
  datatype World = World(
    s: State, txns: map<BatchId, Txn>,
    jobs: multiset<RunId>, held: multiset<RunId>, results: multiset<RunId>,
    purges: map<int, set<RunId>>, h: History)

  datatype Step =
    | FireBegin(b: BatchId, kind: Kind, slots: seq<Slot>, at: Time)
    | FireRefuse(b: BatchId, kind: Kind, slots: seq<Slot>, at: Time)
    | FirePublish(b: BatchId, at: Time)
    | FireCommit(b: BatchId)  // after the last slot, or early when the scheduler swallows an exception
    | FireAbort(b: BatchId)
    | Deliver(r: RunId)
    | WorkerPublish(r: RunId)
    | WorkerCrash(r: RunId)
    | LoseJob(r: RunId)
    | LoseResult(r: RunId)
    | PersistResult(res: Result, now: Time)
    | PersistRaises(res: Result, how: Crash, now: Time)
    | ReapBatch(b: BatchId, now: Time)
    | ReapRaises(b: BatchId, committed: bool, added: bool, now: Time)
    | RestartRecorder
    | CancelBatch(b: BatchId, now: Time)
    | PurgeSnapshot(k: int, rs: set<RunId>)
    | PurgeDelete(k: int)
    | PurgeCancel(k: int, now: Time)

  // ----- the steps -----

  function SlotRuns(slots: seq<Slot>): set<RunId> {
    set i | 0 <= i < |slots| :: slots[i].run
  }

  ghost predicate FreshSlots(slots: seq<Slot>, issued: set<RunId>) {
    && (forall i, j :: 0 <= i < j < |slots| ==> slots[i].run != slots[j].run)
    && SlotRuns(slots) !! issued
  }

  /** The rows of a new batch, all runs pending or, when dispatch is refused, all failed at once. */
  function NewRuns(b: BatchId, slots: seq<Slot>, refused: bool, at: Time): Runs {
    map r | r in SlotRuns(slots) ::
      Run(Some(b), DeviceOf(slots, r), if refused then Failed else Pending, if refused then Some(at) else None, None, None)
  }

  function DeviceOf(slots: seq<Slot>, r: RunId): DeviceId {
    if slots == [] then 0
    else if slots[0].run == r then slots[0].device
    else DeviceOf(slots[1..], r)
  }

  function NewBatch(kind: Kind, slots: seq<Slot>, refused: bool, at: Time): Batch {
    Batch(kind, |slots|, 0, if refused then |slots| else 0, at, if refused then Some(at) else None, None)
  }

  function OpenTxn(b: BatchId, kind: Kind, slots: seq<Slot>, refused: bool, at: Time): Txn {
    Txn(NewBatch(kind, slots, refused, at), NewRuns(b, slots, refused, at), if refused then [] else slots)
  }

  /** One iteration of the publishing loop: a message, or a run failed for want of a credential. */
  function PublishNext(t: Txn, at: Time): Txn
    requires t.todo != [] && t.todo[0].run in t.runs
  {
    var slot := t.todo[0];
    if slot.hasCredential then t.(todo := t.todo[1..])
    else Txn(t.batch.(failed := t.batch.failed + 1), Settle(t.runs, {slot.run}, Failed, at), t.todo[1..])
  }

  function Tokens(w: World): multiset<RunId> {
    w.jobs + w.held + w.results
  }

  ghost predicate Enabled(w: World, step: Step) {
    match step
    case FireBegin(b, kind, slots, at) => b !in w.h.batches && FreshSlots(slots, w.h.issued)
    case FireRefuse(b, kind, slots, at) => b !in w.h.batches && FreshSlots(slots, w.h.issued) && slots != []
    case FirePublish(b, at) => b in w.txns && w.txns[b].todo != [] && w.txns[b].todo[0].run in w.txns[b].runs
    case FireCommit(b) => b in w.txns
    case FireAbort(b) => b in w.txns
    case Deliver(r) => r in w.jobs
    case WorkerPublish(r) => r in w.held
    case WorkerCrash(r) => r in w.held
    case LoseJob(r) => r in w.jobs
    case LoseResult(r) => r in w.results
    case PersistResult(res, now) => res.run in w.results
    case PersistRaises(res, how, now) => res.run in w.results && MayCrash(w.s, res, how)
    case ReapBatch(b, now) => b in w.s.db.batches && IsOpen(w.s.db.batches[b])
    case ReapRaises(b, _, _, now) => b in w.s.db.batches && IsOpen(w.s.db.batches[b])
    case RestartRecorder => true
    case CancelBatch(b, now) => true
    case PurgeSnapshot(k, rs) => k !in w.purges && forall r :: r in rs ==> r in w.jobs
    case PurgeDelete(k) => k in w.purges
    case PurgeCancel(k, now) => k in w.purges
  }

  function Without(m: multiset<RunId>, rs: set<RunId>): multiset<RunId> {
    m - multiset(rs)
  }

  function BatchIdOf(w: World, r: RunId): BatchId {
    if r in w.s.db.runs && w.s.db.runs[r].batch.Some? then w.s.db.runs[r].batch.value else 0
  }

  function Fire(w: World, b: BatchId, kind: Kind, slots: seq<Slot>, refused: bool, at: Time): World {
    w.(txns := w.txns[b := OpenTxn(b, kind, slots, refused, at)],
       h := w.h.(batches := w.h.batches + {b}, issued := w.h.issued + SlotRuns(slots)))
  }

  /** The next slot of a dispatch is published, or its run failed. */
  function AfterPublish(w: World, b: BatchId, at: Time): World
    requires b in w.txns && w.txns[b].todo != [] && w.txns[b].todo[0].run in w.txns[b].runs
  {
    var r := w.txns[b].todo[0].run;
    var w' := w.(txns := w.txns[b := PublishNext(w.txns[b], at)]);
    if w.txns[b].todo[0].hasCredential
    then w'.(jobs := w.jobs + multiset{r}, h := w.h.(published := w.h.published + {r}))
    else w'
  }

  /** A dispatch commits its rows. */
  function AfterFire(w: World, b: BatchId): World
    requires b in w.txns
  {
    var t := w.txns[b];
    w.(s := w.s.(db := w.s.db.(runs := w.s.db.runs + t.runs, batches := w.s.db.batches[b := t.batch])),
       txns := w.txns - {b})
  }

  function AfterAbort(w: World, b: BatchId): World {
    w.(txns := w.txns - {b})
  }

  function AfterCancel(w: World, b: BatchId, now: Time): World {
    w.(s := w.s.(db := Cancel(w.s.db, b, now)))
  }

  function AfterPurge(w: World, k: int, now: Time): World
    requires k in w.purges
  {
    w.(s := w.s.(db := Purge(w.s.db, w.purges[k], now)), purges := w.purges - {k})
  }

  function AfterPersist(w: World, res: Result, now: Time): World {
    var b := BatchIdOf(w, res.run);
    var h := if Discards(w.s, res) then w.h.(lost := w.h.lost + {res.run})
      else w.h.(
        late := LateAfter(w.s.db, res, w.h.late),
        appended := Plus(w.h.appended, b, AppendedBy(w.s, res)),
        committed := if Closes(w.s, res) then Plus(w.h.committed, b, PoppedBy(w.s, res)) else w.h.committed);
    w.(s := Persist(w.s, res, now), results := w.results - multiset{res.run}, h := h)
  }

  function AfterCrash(w: World, res: Result, how: Crash, now: Time): World
    requires MayCrash(w.s, res, how)
  {
    var b := BatchIdOf(w, res.run);
    var recorded := how.AfterStage? || how.DuringCommit? || how.AfterCommit?;
    w.(s := Crashed(w.s, res, how, now), results := w.results - multiset{res.run},
       h := w.h.(
         lost := w.h.lost + {res.run},
         loose := w.h.loose + Loosened(w.s, res, how),
         appended := if recorded then Plus(w.h.appended, b, AppendedBy(w.s, res)) else w.h.appended,
         committed := if how.AfterCommit? then Plus(w.h.committed, b, PoppedBy(w.s, res)) else w.h.committed,
         dropped := if how.DuringCommit? then Plus(w.h.dropped, b, PoppedBy(w.s, res)) else w.h.dropped))
  }

  function AfterReap(w: World, b: BatchId, now: Time): World
    requires b in w.s.db.batches
  {
    w.(s := Reap(w.s, b, now),
       h := w.h.(reaped := w.h.reaped + Unfinished(w.s.db.runs, b),
                 committed := Plus(w.h.committed, b, multiset(GetList(w.s.staged, b)))))
  }

  function AfterReapCrash(w: World, b: BatchId, committed: bool, added: bool, now: Time): World
    requires b in w.s.db.batches
  {
    var popped := GetList(w.s.staged, b);
    w.(s := ReapCrashed(w.s, b, committed, added, now),
       h := if committed then w.h.(committed := Plus(w.h.committed, b, multiset(popped)))
            else w.h.(loose := w.h.loose + Elements(popped), dropped := Plus(w.h.dropped, b, multiset(popped))))
  }

  /** A recorder restart forgets the staging list. */
  function AfterRestart(w: World): World {
    w.(s := w.s.(staged := map[]),
       h := w.h.(loose := w.h.loose + Listed(w.s.staged),
                 dropped := map b | b in w.h.dropped.Keys + w.s.staged.Keys ::
                   Times(w.h.dropped, b) + multiset(GetList(w.s.staged, b))))
  }

  predicate IsMove(step: Step) {
    || step.Deliver? || step.WorkerPublish? || step.WorkerCrash? || step.LoseJob? || step.LoseResult?
    || step.PurgeSnapshot? || step.PurgeDelete?
  }

  /** Only the recorder touches the repository, the staging list and the history of either. */
  predicate IsRecorders(step: Step) {
    || step.PersistResult? || step.PersistRaises? || step.ReapBatch? || step.ReapRaises? || step.RestartRecorder?
  }

  /** A step that touches messages only. */
  function Move(w: World, step: Step): World
    requires IsMove(step) && (step.PurgeDelete? ==> step.k in w.purges)
  {
    match step
    case Deliver(r) => w.(jobs := w.jobs - multiset{r}, held := w.held + multiset{r})
    case WorkerPublish(r) => w.(held := w.held - multiset{r}, results := w.results + multiset{r})
    case WorkerCrash(r) => w.(held := w.held - multiset{r}, h := w.h.(lost := w.h.lost + {r}))
    case LoseJob(r) => w.(jobs := w.jobs - multiset{r}, h := w.h.(lost := w.h.lost + {r}))
    case LoseResult(r) => w.(results := w.results - multiset{r}, h := w.h.(lost := w.h.lost + {r}))
    case PurgeSnapshot(k, rs) => w.(purges := w.purges[k := rs])
    case PurgeDelete(k) =>
      w.(jobs := Without(w.jobs, w.purges[k]),
         h := w.h.(lost := w.h.lost + set r | r in w.purges[k] && r in w.jobs))
  }

  /** A step of the recorder. */
  ghost function Recording(w: World, step: Step): World
    requires Enabled(w, step) && IsRecorders(step)
  {
    match step
    case PersistResult(res, now) => AfterPersist(w, res, now)
    case PersistRaises(res, how, now) => AfterCrash(w, res, how, now)
    case ReapBatch(b, now) => AfterReap(w, b, now)
    case ReapRaises(b, committed, added, now) => AfterReapCrash(w, b, committed, added, now)
    case RestartRecorder => AfterRestart(w)
  }

  /** A step of a dispatch or of a web handler. */
  ghost function Serving(w: World, step: Step): World
    requires Enabled(w, step) && !IsRecorders(step) && !IsMove(step)
  {
    match step
    case FireBegin(b, kind, slots, at) => Fire(w, b, kind, slots, false, at)
    case FireRefuse(b, kind, slots, at) => Fire(w, b, kind, slots, true, at)
    case FirePublish(b, at) => AfterPublish(w, b, at)
    case FireCommit(b) => AfterFire(w, b)
    case FireAbort(b) => AfterAbort(w, b)
    case CancelBatch(b, now) => AfterCancel(w, b, now)
    case PurgeCancel(k, now) => AfterPurge(w, k, now)
  }

  ghost function Apply(w: World, step: Step): World
    requires Enabled(w, step)
  {
    if IsMove(step) then Move(w, step)
    else if IsRecorders(step) then Recording(w, step)
    else Serving(w, step)
  }

  ghost predicate Init(w: World) {
    && w.s.db.runs == map[] && w.s.db.batches == map[]
    && w.s.repo.tree == w.s.repo.index == w.s.repo.head && w.s.staged == map[]
    && w.txns == map[] && w.jobs == w.held == w.results == multiset{} && w.purges == map[]
    && w.h == History({}, {}, {}, {}, {}, map[], {}, map[], map[], map[])
  }

  ghost predicate Next(w: World, step: Step, w': World) {
    Enabled(w, step) && w' == Apply(w, step)
  }

  /** A run of the whole system. */
  ghost predicate Execution(ws: seq<World>, steps: seq<Step>) {
    && |ws| == |steps| + 1 && Init(ws[0])
    && forall i :: 0 <= i < |steps| ==> StepAt(ws, steps, i)
  }

  ghost predicate StepAt(ws: seq<World>, steps: seq<Step>, i: nat)
    requires i < |steps| && |ws| == |steps| + 1
  {
    Next(ws[i], steps[i], ws[i + 1])
  }
}
