/**
 * The tables shared by dispatcher, recorder and web handlers, the recorder's in-memory staging list,
 * and what each handler does to them in one transaction.
 */
module Ledger {
  import opened Basics
  import opened GitStore
  import Compliance

  type RunId = int
  type BatchId = int
  type DeviceId = int

  datatype Status = Pending | Running | Success | Failed | TimedOut | Cancelled

  datatype Kind = Backup | Collect | CveScan

  datatype Run = Run(
    batch: Option<BatchId>, device: DeviceId, status: Status, finishedAt: Option<Time>,
    commitSha: Option<Sha>, payload: Option<Digest>)

  datatype Batch = Batch(
    kind: Kind, total: nat, succeeded: nat, failed: nat,
    createdAt: Time, finishedAt: Option<Time>, commitSha: Option<Sha>)

  /** `groups` are the group names in relationship order. */
  datatype Device = Device(groups: seq<string>, latestPath: Option<Path>, latestAt: Option<Time>)

  /** A job result; `finishedAt` is its timestamp when it parses. */
  datatype Result = Result(
    run: RunId, device: DeviceId, deviceName: string, kind: Kind, success: bool,
    finishedAt: Option<Time>, configText: Option<string>)

  type Runs = map<RunId, Run>
  type Batches = map<BatchId, Batch>

  datatype Db = Db(
    runs: Runs, batches: Batches, devices: map<DeviceId, Device>, configs: map<DeviceId, string>,
    policies: seq<Compliance.Policy>, verdicts: Compliance.Table)

  /** Database, repository and the recorder's `batch_staged`. */
  datatype State = State(db: Db, repo: Repo, staged: map<BatchId, seq<Path>>)

  predicate IsOpen(batch: Batch) {
    batch.finishedAt.None?
  }

  predicate IsUnfinished(run: Run) {
    run.status == Pending || run.status == Running
  }

  function Members(runs: Runs, b: BatchId): set<RunId> {
    set r | r in runs && runs[r].batch == Some(b)
  }

  function Having(runs: Runs, b: BatchId, st: Status): set<RunId> {
    set r | r in runs && runs[r].batch == Some(b) && runs[r].status == st
  }

  function Unfinished(runs: Runs, b: BatchId): set<RunId> {
    set r | r in runs && runs[r].batch == Some(b) && IsUnfinished(runs[r])
  }

  /** The batch row of a run, when both the reference and the row exist. */
  function BatchOf(db: Db, run: Run): Option<BatchId> {
    if run.batch.Some? && run.batch.value in db.batches then run.batch else None
  }

  /** Moves a set of runs to one final status. */
  function Settle(runs: Runs, rs: set<RunId>, st: Status, now: Time): Runs {
    map r | r in runs :: if r in rs then runs[r].(status := st, finishedAt := Some(now)) else runs[r]
  }

  lemma SettleNone(runs: Runs, st: Status, now: Time)
    ensures Settle(runs, {}, st, now) == runs
  {
  }

  /** Settling one run more. */
  lemma SettleMore(runs: Runs, rs: set<RunId>, r: RunId, st: Status, now: Time)
    requires r in runs && r !in rs
    ensures var settled := Settle(runs, rs, st, now);
      && settled.Keys == runs.Keys && settled[r] == runs[r]
      && Settle(runs, rs + {r}, st, now) == settled[r := settled[r].(status := st, finishedAt := Some(now))]
  {
    SameMap(Settle(runs, rs + {r}, st, now),
      Settle(runs, rs, st, now)[r := runs[r].(status := st, finishedAt := Some(now))]);
  }

  /** A batch with that many more runs counted as failed. */
  function Charged(batches: Batches, b: BatchId, n: nat): Batches
    requires b in batches
  {
    batches[b := batches[b].(failed := batches[b].failed + n)]
  }

  lemma ChargeMore(batches: Batches, b: BatchId, rs: set<RunId>, r: RunId)
    requires b in batches && r !in rs
    ensures var charged := Charged(batches, b, |rs|);
      Charged(batches, b, |rs + {r}|) == charged[b := charged[b].(failed := charged[b].failed + 1)]
  {
  }

  /** Stamps a sha on the batch's runs; the reaper spares runs that carry one already. */
  function Stamp(runs: Runs, b: BatchId, sha: Sha, sparing: bool): Runs {
    map r | r in runs ::
      if runs[r].batch == Some(b) && !(sparing && runs[r].commitSha.Some?)
      then runs[r].(commitSha := Some(sha)) else runs[r]
  }

  /** Still open although every run has been counted. */
  predicate IsFull(batch: Batch) {
    IsOpen(batch) && batch.succeeded + batch.failed >= batch.total
  }

  function CloseIfFull(batch: Batch, now: Time): Batch {
    if IsFull(batch) then batch.(finishedAt := Some(now)) else batch
  }

  // ----- recorder: persisting one result -----

  /** Status and counter of a result that is not discarded. */
  function Count(s: State, res: Result): State
    requires res.run in s.db.runs
  {
    var run := s.db.runs[res.run];
    var run' := run.(status := if res.success then Success else Failed, finishedAt := res.finishedAt.OrElse(run.finishedAt));
    var db' := s.db.(runs := s.db.runs[res.run := run']);
    match BatchOf(s.db, run)
    case None => s.(db := db')
    case Some(b) =>
      var batch := s.db.batches[b];
      var batch' := if res.success then batch.(succeeded := batch.succeeded + 1) else batch.(failed := batch.failed + 1);
      s.(db := db'.(batches := s.db.batches[b := batch']))
  }

  predicate Captures(res: Result) {
    res.success && res.kind == Backup && res.configText.Some?
  }

  function GroupName(db: Db, device: DeviceId): string {
    if device in db.devices && db.devices[device].groups != [] then db.devices[device].groups[0] else "ungrouped"
  }

  function PathFor(db: Db, res: Result): Path {
    FilePath(GroupName(db, res.device), res.deviceName)
  }

  /** The file side of a capture: staged for a batch, committed at once without one. */
  function CaptureFile(s: State, res: Result): (State, Option<Sha>)
    requires Captures(res) && res.run in s.db.runs
  {
    var path, text := PathFor(s.db, res), res.configText.value;
    match BatchOf(s.db, s.db.runs[res.run])
    case None =>
      var (repo', sha) := Write(s.repo, path, text);
      (s.(repo := repo'), sha)
    case Some(b) =>
      var staged' := if Differs(s.repo, path, text) then s.staged[b := GetList(s.staged, b) + [path]] else s.staged;
      (s.(repo := Stage(s.repo, path, text), staged := staged'), s.db.runs[res.run].commitSha)
  }

  /** The table side of a capture: run, device and search index. */
  function CaptureRows(db: Db, res: Result, sha: Option<Sha>): Db
    requires Captures(res) && res.run in db.runs
  {
    var text := res.configText.value;
    var run := db.runs[res.run].(commitSha := sha, payload := Some(Sha256(text)));
    var devices' := if res.device in db.devices
      then db.devices[res.device := db.devices[res.device].(latestPath := Some(PathFor(db, res)), latestAt := res.finishedAt)]
      else db.devices;
    db.(runs := db.runs[res.run := run], devices := devices', configs := db.configs[res.device := text])
  }

  function Capture(s: State, res: Result): State
    requires Captures(res) && res.run in s.db.runs
  {
    var (s', sha) := CaptureFile(s, res);
    s'.(db := CaptureRows(s'.db, res, sha))
  }

  function DevicesOf(runs: Runs, b: BatchId): set<DeviceId> {
    set r | r in Members(runs, b) :: runs[r].device
  }

  /** Closing a full batch: commit what it staged, stamp the sha, evaluate the policies. */
  function Close(s: State, b: BatchId, at: Time, now: Time): State
    requires b in s.db.batches
  {
    var (repo', sha) := Commit(s.repo, GetList(s.staged, b));
    var batch := s.db.batches[b].(finishedAt := Some(at));
    var batch' := if sha.Some? then batch.(commitSha := sha) else batch;
    var runs' := if sha.Some? then Stamp(s.db.runs, b, sha.value, false) else s.db.runs;
    var verdicts' := if batch.kind == Backup
      then Compliance.AutoEvaluated(s.db.policies, s.db.configs, DevicesOf(s.db.runs, b), s.db.verdicts, now)
      else s.db.verdicts;
    State(s.db.(runs := runs', batches := s.db.batches[b := batch'], verdicts := verdicts'), repo', s.staged - {b})
  }

  predicate Discards(s: State, res: Result) {
    res.run !in s.db.runs || s.db.runs[res.run].status == Cancelled
  }

  /** Everything before the closing check. */
  function Recorded(s: State, res: Result): State
    requires !Discards(s, res)
  {
    var s1 := Count(s, res);
    if Captures(res) then Capture(s1, res) else s1
  }

  function Persist(s: State, res: Result, now: Time): State {
    if Discards(s, res) then s
    else
      var s' := Recorded(s, res);
      match BatchOf(s.db, s.db.runs[res.run])
      case None => s'
      case Some(b) =>
        if IsFull(s'.db.batches[b]) then Close(s', b, res.finishedAt.GetOr(now), now) else s'
  }

  // ----- recorder: reaping stale batches -----

  function Reap(s: State, b: BatchId, now: Time): State
    requires b in s.db.batches
  {
    var (repo', sha) := Commit(s.repo, GetList(s.staged, b));
    var late := Unfinished(s.db.runs, b);
    var batch := s.db.batches[b].(finishedAt := Some(now), failed := s.db.batches[b].failed + |late|);
    var batch' := if sha.Some? then batch.(commitSha := sha) else batch;
    var settled := Settle(s.db.runs, late, Failed, now);
    var runs' := if sha.Some? then Stamp(settled, b, sha.value, true) else settled;
    State(s.db.(runs := runs', batches := s.db.batches[b := batch']), repo', s.staged - {b})
  }

  // ----- recorder: handlers that raise -----

  /**
   * Where an exception leaves `_persist`. The session rolls back, so the tables keep their old contents,
   * but files written, index entries added, commits made and paths popped stay as they are.
   */
  datatype Crash =
    | BeforeStage
    | DuringStage(partial: string)  // the file write itself fails, leaving some text behind
    | AfterStage
    | DuringCommit(added: bool)     // paths are popped; the index may or may not hold them
    | AfterCommit

  predicate MayCrash(s: State, res: Result, how: Crash) {
    how.BeforeStage? || (
      && !Discards(s, res) && BatchOf(s.db, s.db.runs[res.run]).Some?
      && (how.DuringStage? ==> Captures(res) && Differs(s.repo, PathFor(s.db, res), res.configText.value))
      && (how.DuringCommit? || how.AfterCommit? ==>
           IsFull(Recorded(s, res).db.batches[s.db.runs[res.run].batch.value])))
  }

  /** The repository and staging list of a batch whose paths were popped but not committed. */
  function CommitLost(s: State, b: BatchId, added: bool): State {
    s.(repo := if added then Add(s.repo, Elements(GetList(s.staged, b))) else s.repo, staged := s.staged - {b})
  }

  function Crashed(s: State, res: Result, how: Crash, now: Time): State
    requires MayCrash(s, res, how)
  {
    match how
    case BeforeStage => s
    case DuringStage(partial) => s.(repo := s.repo.(tree := s.repo.tree[PathFor(s.db, res) := partial]))
    case AfterStage => Recorded(s, res).(db := s.db)
    case DuringCommit(added) => CommitLost(Recorded(s, res), s.db.runs[res.run].batch.value, added).(db := s.db)
    case AfterCommit => Persist(s, res, now).(db := s.db)
  }

  /** The reaper raising while, or after, it commits the files of one batch. */
  function ReapCrashed(s: State, b: BatchId, committed: bool, added: bool, now: Time): State
    requires b in s.db.batches
  {
    if committed then Reap(s, b, now).(db := s.db) else CommitLost(s, b, added)
  }

  // ----- web: cancelling a batch, purging the queue -----

  function Cancel(db: Db, b: BatchId, now: Time): Db {
    if b !in db.batches || !IsOpen(db.batches[b]) then db
    else
      var rs := Unfinished(db.runs, b);
      var batch := db.batches[b].(failed := db.batches[b].failed + |rs|);
      db.(runs := Settle(db.runs, rs, Cancelled, now), batches := db.batches[b := CloseIfFull(batch, now)])
  }

  /** Purged runs that the purge still finds unfinished. */
  function Doomed(runs: Runs, ids: set<RunId>): set<RunId> {
    set r | r in ids && r in runs && IsUnfinished(runs[r])
  }

  function Purge(db: Db, ids: set<RunId>, now: Time): Db {
    var rs := Doomed(db.runs, ids);
    db.(runs := Settle(db.runs, rs, Cancelled, now),
        batches := map b | b in db.batches ::
          var n := |rs * Members(db.runs, b)|;
          if n == 0 then db.batches[b]
          else CloseIfFull(db.batches[b].(failed := db.batches[b].failed + n), now))
  }
}
