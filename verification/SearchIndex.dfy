/** The search index against the file store: what a device's stored text says about its file on disk. */
module SearchIndex {
  import opened Basics
  import opened GitStore
  import opened Ledger
  import opened Books
  import opened Staging
  import Compliance
  import Worker = Capture

  /** Persisting a list of results, one after the other. */
  function PersistAll(s: State, rs: seq<Result>, now: Time): State {
    if rs == [] then s else Persist(PersistAll(s, rs[..|rs| - 1], now), rs[|rs| - 1], now)
  }

  /** Whether persisting this result captures a configuration. */
  predicate Applies(s: State, res: Result) {
    !Discards(s, res) && Captures(res)
  }

  /** The text of the device's last applied capture in the list, if any. */
  function LastText(s: State, rs: seq<Result>, now: Time, d: DeviceId): Option<string> {
    if rs == [] then None
    else
      var front, last := rs[..|rs| - 1], rs[|rs| - 1];
      if last.device == d && Applies(PersistAll(s, front, now), last) then last.configText
      else LastText(s, front, now, d)
  }

  /** The index row, the recorded path and the file of a device agree. */
  ghost predicate Agrees(s: State, d: DeviceId) {
    && d in s.db.devices && d in s.db.configs
    && s.db.devices[d].latestPath.Some?
    && var p := s.db.devices[d].latestPath.value;
       p in s.repo.tree && s.repo.tree[p] == s.db.configs[d]
  }

  /** Devices, index and tree after a capture; the rest of a persist leaves them alone. */
  ghost predicate Stored(s: State, res: Result, s': State) {
    if Applies(s, res) then
      && s'.repo.tree == Stage(s.repo, PathFor(s.db, res), res.configText.value).tree
      && s'.db.configs == s.db.configs[res.device := res.configText.value]
      && s'.db.devices == (if res.device in s.db.devices
           then s.db.devices[res.device := s.db.devices[res.device].(latestPath := Some(PathFor(s.db, res)),
                                                                    latestAt := res.finishedAt)]
           else s.db.devices)
    else s'.repo.tree == s.repo.tree && s'.db.configs == s.db.configs && s'.db.devices == s.db.devices
  }

  lemma RecordedFiles(s: State, res: Result)
    requires !Discards(s, res)
    ensures Stored(s, res, Recorded(s, res))
  {
    var s1 := Count(s, res);
    assert s1.repo == s.repo && s1.db.configs == s.db.configs && s1.db.devices == s.db.devices;
    if Captures(res) {
      assert BatchOf(s1.db, s1.db.runs[res.run]) == BatchOf(s.db, s.db.runs[res.run]);
      assert PathFor(s1.db, res) == PathFor(s.db, res);
    }
  }

  lemma CloseFiles(s: State, b: BatchId, at: Time, now: Time)
    requires b in s.db.batches
    ensures var s' := Close(s, b, at, now);
      s'.repo.tree == s.repo.tree && s'.db.configs == s.db.configs && s'.db.devices == s.db.devices
  {
  }

  /** What one persist does to devices, index and tree. */
  lemma PersistFiles(s: State, res: Result, now: Time)
    ensures Stored(s, res, Persist(s, res, now)) == true
  {
    if !Discards(s, res) {
      RecordedFiles(s, res);
      var b := BatchOf(s.db, s.db.runs[res.run]);
      if b.Some? && IsFull(Recorded(s, res).db.batches[b.value]) {
        CloseFiles(Recorded(s, res), b.value, res.finishedAt.GetOr(now), now);
      }
    }
  }

  /** Devices keep their groups, so a result's path is the same at any time. */
  lemma PathStable(s: State, res: Result, now: Time, later: Result)
    ensures PathFor(Persist(s, res, now).db, later) == PathFor(s.db, later)
    ensures Persist(s, res, now).db.devices.Keys == s.db.devices.Keys
  {
    PersistFiles(s, res, now);
  }

  /**
   * One capture of a known device: its index row is the text, and the file at its recorded path is that
   * text too, unless the write was skipped over a file that holds carriage returns.
   */
  lemma CaptureAgrees(s: State, res: Result, now: Time)
    requires Applies(s, res) && res.device in s.db.devices
    ensures var (s', path, text) := (Persist(s, res, now), PathFor(s.db, res), res.configText.value);
      && s'.db.configs[res.device] == text && s'.db.devices[res.device].latestPath == Some(path)
      && path in s'.repo.tree && ReadText(s'.repo.tree[path]) == ReadText(text)
      && (Agrees(s', res.device) <==> Differs(s.repo, path, text) || '\r' !in s.repo.tree[path])
  {
    PersistFiles(s, res, now);
    StageStores(s.repo, PathFor(s.db, res), res.configText.value);
  }

  /** No two devices write to one path. */
  ghost predicate Separate(s: State, rs: seq<Result>) {
    forall i, j | 0 <= i < |rs| && 0 <= j < |rs| && Captures(rs[i]) && Captures(rs[j])
      && PathFor(s.db, rs[i]) == PathFor(s.db, rs[j]) :: rs[i].device == rs[j].device
  }

  /** A device's recorded path is one of the paths its own results map to. */
  ghost predicate OwnPath(db: Db, devices: map<DeviceId, Device>, rs: seq<Result>, d: DeviceId) {
    d in devices && exists i ::
      0 <= i < |rs| && Captures(rs[i]) && rs[i].device == d && Some(PathFor(db, rs[i])) == devices[d].latestPath
  }

  lemma {:induction false} PathsStable(s: State, rs: seq<Result>, now: Time, res: Result)
    ensures PathFor(PersistAll(s, rs, now).db, res) == PathFor(s.db, res)
    ensures PersistAll(s, rs, now).db.devices.Keys == s.db.devices.Keys
  {
    if rs != [] {
      PathsStable(s, rs[..|rs| - 1], now, res);
      PathStable(PersistAll(s, rs[..|rs| - 1], now), rs[|rs| - 1], now, res);
    }
  }

  /** Row and file of a device say the same, up to newline translation. */
  ghost predicate ReadAlike(s: State, d: DeviceId) {
    && d in s.db.devices && d in s.db.configs && s.db.devices[d].latestPath.Some?
    && var p := s.db.devices[d].latestPath.value;
       p in s.repo.tree && ReadText(s.repo.tree[p]) == ReadText(s.db.configs[d])
  }

  /** Whether this capture leaves file and row exactly equal: it writes the file, or skips a file without carriage
      returns. */
  predicate IsExact(s: State, res: Result)
    requires Captures(res)
  {
    var path := PathFor(s.db, res);
    Differs(s.repo, path, res.configText.value) || '\r' !in s.repo.tree[path]
  }

  /** Whether the device's last applied capture was exact. */
  predicate LastExact(s: State, rs: seq<Result>, now: Time, d: DeviceId) {
    if rs == [] then true
    else
      var front, last := rs[..|rs| - 1], rs[|rs| - 1];
      if last.device == d && Applies(PersistAll(s, front, now), last) then IsExact(PersistAll(s, front, now), last)
      else LastExact(s, front, now, d)
  }

  /** A result that is not captured, or is captured for another device elsewhere, leaves this device's row, recorded
      path and file alone. */
  lemma OthersKept(s: State, res: Result, now: Time, d: DeviceId)
    requires d in s.db.devices && s.db.devices[d].latestPath.Some?
    requires Applies(s, res) ==> res.device != d && Some(PathFor(s.db, res)) != s.db.devices[d].latestPath
    ensures var (s', p) := (Persist(s, res, now), s.db.devices[d].latestPath.value);
      && d in s'.db.devices && s'.db.devices[d] == s.db.devices[d]
      && Get(s'.db.configs, d) == Get(s.db.configs, d) && Get(s'.repo.tree, p) == Get(s.repo.tree, p)
  {
    PersistFiles(s, res, now);
  }

  /** What holds of a device after its captures and any others. */
  ghost predicate Indexed(s: State, rs: seq<Result>, now: Time, d: DeviceId) {
    var s' := PersistAll(s, rs, now);
    && ReadAlike(s', d) && Some(s'.db.configs[d]) == LastText(s, rs, now, d)
    && (Agrees(s', d) <==> LastExact(s, rs, now, d))
    && OwnPath(s.db, s'.db.devices, rs, d)
  }

  lemma CaptureIndexed(s: State, res: Result, now: Time, s': State)
    requires Applies(s, res) && res.device in s.db.devices && s' == Persist(s, res, now)
    ensures ReadAlike(s', res.device) == true && s'.db.configs[res.device] == res.configText.value
    ensures Agrees(s', res.device) == IsExact(s, res)
    ensures s'.db.devices[res.device].latestPath == Some(PathFor(s.db, res))
  {
    CaptureAgrees(s, res, now);
  }

  lemma IndexedNow(s: State, rs: seq<Result>, now: Time, d: DeviceId)
    requires rs != [] && d in s.db.devices
    requires rs[|rs| - 1].device == d && Applies(PersistAll(s, rs[..|rs| - 1], now), rs[|rs| - 1])
    ensures Indexed(s, rs, now, d)
  {
    var front, last := rs[..|rs| - 1], rs[|rs| - 1];
    var s1 := PersistAll(s, front, now);
    PathsStable(s, front, now, last);
    CaptureIndexed(s1, last, now, PersistAll(s, rs, now));
    assert Captures(rs[|rs| - 1]);
  }

  lemma IndexedStill(s: State, rs: seq<Result>, now: Time, d: DeviceId)
    requires Separate(s, rs) && rs != [] && d in s.db.devices
    requires var last := rs[|rs| - 1]; !(last.device == d && Applies(PersistAll(s, rs[..|rs| - 1], now), last))
    requires Indexed(s, rs[..|rs| - 1], now, d)
    ensures Indexed(s, rs, now, d)
  {
    var front, last := rs[..|rs| - 1], rs[|rs| - 1];
    var s1 := PersistAll(s, front, now);
    PathsStable(s, front, now, last);
    var i :| 0 <= i < |front| && Captures(front[i]) && front[i].device == d
      && Some(PathFor(s.db, front[i])) == s1.db.devices[d].latestPath;
    assert rs[i] == front[i] && rs[|rs| - 1] == last;
    assert Applies(s1, last) ==> PathFor(s.db, last) != PathFor(s.db, rs[i]);
    OthersKept(s1, last, now, d);
  }

  /**
   * After any list of results, each device that had a configuration captured is indexed with its last captured
   * text, and the file at its recorded path reads the same; it holds exactly that text if and only if the last
   * capture wrote it or skipped a file without carriage returns.
   */
  lemma {:induction false} IndexReads(s: State, rs: seq<Result>, now: Time, d: DeviceId)
    requires Separate(s, rs) && d in s.db.devices && LastText(s, rs, now, d).Some?
    ensures Indexed(s, rs, now, d) == true
  {
    var front, last := rs[..|rs| - 1], rs[|rs| - 1];
    if last.device == d && Applies(PersistAll(s, front, now), last) {
      IndexedNow(s, rs, now, d);
    } else {
      IndexReads(s, front, now, d);
      IndexedStill(s, rs, now, d);
    }
  }

  // ----- texts without carriage returns -----

  ghost predicate PlainTexts(rs: seq<Result>) {
    forall i | 0 <= i < |rs| && Captures(rs[i]) :: '\r' !in rs[i].configText.value
  }

  ghost predicate PlainFile(s: State, res: Result) {
    var p := PathFor(s.db, res); p in s.repo.tree ==> '\r' !in s.repo.tree[p]
  }

  /** The files at the paths used hold no carriage return. */
  ghost predicate PlainFiles(s: State, rs: seq<Result>) {
    forall i | 0 <= i < |rs| && Captures(rs[i]) :: PlainFile(s, rs[i])
  }

  /** Captured files stay free of carriage returns. */
  lemma {:induction false} StaysPlain(s: State, rs: seq<Result>, now: Time, res: Result)
    requires PlainFile(s, res) && PlainTexts(rs)
    ensures PlainFile(PersistAll(s, rs, now), res)
  {
    if rs != [] {
      var front, last := rs[..|rs| - 1], rs[|rs| - 1];
      StaysPlain(s, front, now, res);
      var s1 := PersistAll(s, front, now);
      PersistFiles(s1, last, now);
      PathStable(s1, last, now, res);
    }
  }

  lemma {:induction false} PlainIsExact(s: State, rs: seq<Result>, now: Time, d: DeviceId)
    requires PlainTexts(rs) && PlainFiles(s, rs)
    ensures LastExact(s, rs, now, d)
  {
    if rs != [] {
      var front, last := rs[..|rs| - 1], rs[|rs| - 1];
      PlainIsExact(s, front, now, d);
      if Captures(last) {
        assert PlainFile(s, rs[|rs| - 1]);
        StaysPlain(s, front, now, last);
      }
    }
  }

  /** What the worker sends for a backup: the outputs of CLI commands, or a NETCONF reply, normalised. */
  ghost predicate FromWorker(res: Result)
    requires res.configText.Some?
  {
    || (exists raws: seq<string>, cmds: seq<string> ::
          |raws| == |cmds| && res.configText.value == Worker.ConfigText(raws, cmds))
    || (exists raw: string :: res.configText.value == Worker.Normalize(raw))
  }

  /** For what workers send, files and index agree text for text, if the files were plain to begin with. */
  lemma IndexAgrees(s: State, rs: seq<Result>, now: Time, d: DeviceId)
    requires Separate(s, rs) && PlainFiles(s, rs)
    requires forall i | 0 <= i < |rs| && Captures(rs[i]) :: FromWorker(rs[i])
    requires d in s.db.devices && LastText(s, rs, now, d).Some?
    ensures Agrees(PersistAll(s, rs, now), d)
    ensures PersistAll(s, rs, now).db.configs[d] == LastText(s, rs, now, d).value
  {
    forall i | 0 <= i < |rs| && Captures(rs[i]) ensures '\r' !in rs[i].configText.value {
      WorkerPlain(rs[i]);
    }
    PlainIsExact(s, rs, now, d);
    IndexReads(s, rs, now, d);
  }

  lemma WorkerPlain(res: Result)
    requires res.configText.Some? && FromWorker(res)
    ensures '\r' !in res.configText.value
  {
    if raws: seq<string>, cmds: seq<string> :|
      |raws| == |cmds| && res.configText.value == Worker.ConfigText(raws, cmds)
    {
      Worker.ConfigPlain(raws, cmds);
    } else {
      var raw: string :| res.configText.value == Worker.Normalize(raw);
      Worker.NormalizePlain(raw);
    }
  }

  // ----- compliance results when a batch closes -----

  /** The device has a run in the batch. */
  ghost predicate Took(runs: Runs, b: BatchId, d: DeviceId) {
    exists r :: r in runs && runs[r].batch == Some(b) && runs[r].device == d
  }

  /** The policy is enabled, evaluates by itself and lists the device, which has a run in the batch. */
  ghost predicate IsDue(p: Compliance.Policy, runs: Runs, b: BatchId, d: DeviceId) {
    p.enabled && p.autoEvaluate && Compliance.Lists(p, d) && Took(runs, b, d)
  }

  /** When a persist closes a backup batch, every enabled auto-evaluate policy holds, for each device it lists that had
      a run in the batch, what a fresh verdict says of the text now stored for it; no other result row changes. */
  lemma ClosingEvaluates(s: State, res: Result, now: Time, b: BatchId)
    requires !Discards(s, res) && Closes(s, res) && BatchOf(s.db, s.db.runs[res.run]) == Some(b)
    requires s.db.batches[b].kind == Backup
    requires forall i, j :: 0 <= i < j < |s.db.policies| ==> s.db.policies[i].id != s.db.policies[j].id
    ensures var db' := Persist(s, res, now).db;
      && (forall p, d :: p in s.db.policies && IsDue(p, s.db.runs, b, d)
           ==> (p.id, d) in db'.verdicts
               && Compliance.IsVerdict(p, Get(db'.configs, d), now, db'.verdicts[(p.id, d)]))
      && (forall k: (Compliance.PolicyId, DeviceId) ::
           (forall p :: p in s.db.policies && p.id == k.0 ==> !IsDue(p, s.db.runs, b, k.1))
           ==> Get(db'.verdicts, k) == Get(s.db.verdicts, k))
  {
    var s1 := Recorded(s, res);
    var ids := DevicesOf(s.db.runs, b);
    KeepsDevices(s, res, b);
    forall p: Compliance.Policy, d ensures IsDue(p, s.db.runs, b, d) <==> Compliance.IsDue(p, d, ids) {
      if Took(s.db.runs, b, d) {
        var r :| r in s.db.runs && s.db.runs[r].batch == Some(b) && s.db.runs[r].device == d;
        assert r in Members(s.db.runs, b);
      }
    }
    Compliance.AutoEvaluateFresh(s.db.policies, s1.db.configs, ids, s.db.verdicts, now);
    assert Persist(s, res, now).db.verdicts == Compliance.AutoEvaluated(s.db.policies, s1.db.configs, ids, s.db.verdicts, now);
  }

  /** A persist that closes no backup batch evaluates nothing. */
  lemma OtherwiseNotEvaluated(s: State, res: Result, now: Time)
    requires Closes(s, res) ==> s.db.batches[s.db.runs[res.run].batch.value].kind != Backup
    ensures Persist(s, res, now).db.verdicts == s.db.verdicts
  {
    if !Discards(s, res) && BatchOf(s.db, s.db.runs[res.run]).Some? {
      KeepsDevices(s, res, s.db.runs[res.run].batch.value);
    }
  }

  /** The parts of the tables that decide what is evaluated. */
  ghost predicate EvaluatesAlike(db: Db, db': Db, b: BatchId) {
    && DevicesOf(db'.runs, b) == DevicesOf(db.runs, b)
    && db'.policies == db.policies && db'.verdicts == db.verdicts
    && db'.batches.Keys == db.batches.Keys && (b in db.batches ==> db'.batches[b].kind == db.batches[b].kind)
  }

  lemma CountAlike(s: State, res: Result, b: BatchId)
    requires !Discards(s, res)
    ensures EvaluatesAlike(s.db, Count(s, res).db, b)
  {
    RowsAlike(s.db, Count(s, res).db, b);
  }

  lemma CaptureAlike(s: State, res: Result, b: BatchId)
    requires Captures(res) && res.run in s.db.runs
    ensures EvaluatesAlike(s.db, Capture(s, res).db, b)
  {
    RowsAlike(s.db, Capture(s, res).db, b);
  }

  lemma KeepsDevices(s: State, res: Result, b: BatchId)
    requires !Discards(s, res)
    ensures EvaluatesAlike(s.db, Recorded(s, res).db, b) == true
  {
    var s1 := Count(s, res);
    CountAlike(s, res, b);
    if Captures(res) {
      CaptureAlike(s1, res, b);
    }
  }

  lemma RowsAlike(db: Db, db': Db, b: BatchId)
    requires db'.runs.Keys == db.runs.Keys
    requires forall r | r in db.runs :: db'.runs[r].batch == db.runs[r].batch && db'.runs[r].device == db.runs[r].device
    ensures DevicesOf(db'.runs, b) == DevicesOf(db.runs, b)
  {
    forall r ensures r in Members(db'.runs, b) <==> r in Members(db.runs, b) {}
    forall d ensures d in DevicesOf(db'.runs, b) <==> d in DevicesOf(db.runs, b) {
      if d in DevicesOf(db.runs, b) {
        var r :| r in Members(db.runs, b) && db.runs[r].device == d;
        assert r in Members(db'.runs, b) && db'.runs[r].device == d;
      }
      if d in DevicesOf(db'.runs, b) {
        var r :| r in Members(db'.runs, b) && db'.runs[r].device == d;
        assert r in Members(db.runs, b) && db.runs[r].device == d;
      }
    }
  }
}
