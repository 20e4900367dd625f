/**
 * Where a captured configuration ends up, spelled out from the tables alone: its directory and file, the path its
 * device records, the index row, and the staging list or commit that takes it.
 */
module Filing {
  import opened Basics
  import opened GitStore
  import opened Ledger
  import opened Staging
  import opened SearchIndex

  /** The first group of a known device names the directory; a device without groups, or not in the table, is
      "ungrouped". A group whose slug is empty or "." adds no directory. */
  ghost predicate GoesTo(devices: map<DeviceId, Device>, res: Result, path: Path) {
    var file := Slugify(res.deviceName) + ".cfg";
    if res.device in devices && devices[res.device].groups != [] then
      var dir := Slugify(devices[res.device].groups[0]);
      path == if dir != "" && dir != "." then dir + "/" + file else file
    else path == "ungrouped/" + file
  }

  /** Whether the text is new to the file at the path. */
  ghost predicate IsNew(repo: Repo, path: Path, text: string) {
    path !in repo.tree || ReadText(repo.tree[path]) != text
  }

  lemma PathGoesTo(db: Db, res: Result)
    ensures GoesTo(db.devices, res, PathFor(db, res)) == true
  {
    assert Slugify("ungrouped") == "ungrouped";
  }

  /** The text is at the path, the index holds it, and the device, if it is known, points there. */
  ghost predicate InPlace(s: State, res: Result, path: Path) {
    && res.configText.Some?
    && path in s.repo.tree && ReadText(s.repo.tree[path]) == ReadText(res.configText.value)
    && Get(s.db.configs, res.device) == res.configText
    && (res.device in s.db.devices ==>
          s.db.devices[res.device].latestPath == Some(path) && s.db.devices[res.device].latestAt == res.finishedAt)
  }

  /** One capture: its file, its index row and its device; every other file, row and device is as before. */
  lemma CaptureInPlace(s: State, res: Result, now: Time, path: Path)
    requires !Discards(s, res) && res.success && res.kind == Backup && res.configText.Some?
    requires GoesTo(s.db.devices, res, path)
    ensures var s' := Persist(s, res, now);
      && InPlace(s', res, path)
      && (IsNew(s.repo, path, res.configText.value) ==> s'.repo.tree[path] == res.configText.value)
      && (forall p | p != path :: Get(s'.repo.tree, p) == Get(s.repo.tree, p))
      && (forall d | d != res.device :: Get(s'.db.configs, d) == Get(s.db.configs, d) && Get(s'.db.devices, d) == Get(s.db.devices, d))
      && s'.db.devices.Keys == s.db.devices.Keys
  {
    PathGoesTo(s.db, res);
    PersistFiles(s, res, now);
    StageStores(s.repo, path, res.configText.value);
  }

  /** Any other result leaves files, index and devices alone. */
  lemma NothingCaptured(s: State, res: Result, now: Time)
    requires !res.success || res.kind != Backup || res.configText.None?
    ensures var s' := Persist(s, res, now);
      s'.repo.tree == s.repo.tree && s'.db.configs == s.db.configs && s'.db.devices == s.db.devices
  {
    PersistFiles(s, res, now);
  }

  /** In a batch that stays open the path joins the batch's list exactly when the text is new; a batch that closes
      hands its list over. No other list changes. */
  lemma CaptureListed(s: State, res: Result, now: Time, path: Path, b: BatchId)
    requires !Discards(s, res) && res.success && res.kind == Backup && res.configText.Some?
    requires GoesTo(s.db.devices, res, path) && BatchOf(s.db, s.db.runs[res.run]) == Some(b)
    ensures var (s', held) := (Persist(s, res, now),
        GetList(s.staged, b) + if IsNew(s.repo, path, res.configText.value) then [path] else []);
      && GetList(s'.staged, b) == (if Closes(s, res) then [] else held)
      && (Closes(s, res) ==> s'.repo == Commit(Stage(s.repo, path, res.configText.value), held).0)
      && (forall b' | b' != b :: Get(s'.staged, b') == Get(s.staged, b'))
  {
    PathGoesTo(s.db, res);
    var s2 := Recorded(s, res);
    RecordedList(s, res, path, b);
    assert GetList(s.staged, b) + [] == GetList(s.staged, b);
    if Closes(s, res) {
      assert Persist(s, res, now) == Close(s2, b, res.finishedAt.GetOr(now), now);
    }
  }

  lemma RecordedList(s: State, res: Result, path: Path, b: BatchId)
    requires !Discards(s, res) && Captures(res) && path == PathFor(s.db, res)
    requires BatchOf(s.db, s.db.runs[res.run]) == Some(b)
    ensures var s2 := Recorded(s, res);
      && s2.repo == Stage(s.repo, path, res.configText.value)
      && s2.staged == if IsNew(s.repo, path, res.configText.value) then s.staged[b := GetList(s.staged, b) + [path]] else s.staged
  {
    var s1 := Count(s, res);
    assert PathFor(s1.db, res) == path && s1.repo == s.repo && s1.staged == s.staged;
  }

  /** Without a batch a new text is committed at once, alone, and the run carries the sha; an old one makes no commit
      and leaves the run without a sha. */
  lemma CaptureCommitted(s: State, res: Result, now: Time, path: Path)
    requires !Discards(s, res) && res.success && res.kind == Backup && res.configText.Some?
    requires GoesTo(s.db.devices, res, path) && BatchOf(s.db, s.db.runs[res.run]).None?
    ensures var (s', text) := (Persist(s, res, now), res.configText.value);
      && s'.staged == s.staged
      && (if IsNew(s.repo, path, text)
          then Get(s'.repo.head, path) == Some(text) && s'.repo.commits == s.repo.commits + 1
               && s'.db.runs[res.run].commitSha == Some(s.repo.commits)
          else s'.repo == s.repo && s'.db.runs[res.run].commitSha == None)
  {
    PathGoesTo(s.db, res);
    var s1 := Count(s, res);
    assert BatchOf(s1.db, s1.db.runs[res.run]).None? && PathFor(s1.db, res) == path;
    assert Persist(s, res, now) == Capture(s1, res);
  }

  // ----- after any list of results -----

  /** Of the captures of its device, the i-th result is the last that was not discarded. */
  ghost predicate IsLastCapture(s: State, rs: seq<Result>, now: Time, i: nat) {
    && i < |rs| && Applies(PersistAll(s, rs[..i], now), rs[i])
    && forall j: nat | i < j < |rs| :: !CapturesFor(s, rs, now, j, rs[i].device)
  }

  ghost predicate CapturesFor(s: State, rs: seq<Result>, now: Time, j: nat, d: DeviceId)
    requires j < |rs|
  {
    rs[j].device == d && Applies(PersistAll(s, rs[..j], now), rs[j])
  }

  lemma PersistNext(s: State, rs: seq<Result>, now: Time, n: nat)
    requires n < |rs|
    ensures PersistAll(s, rs[..n + 1], now) == Persist(PersistAll(s, rs[..n], now), rs[n], now)
  {
    assert rs[..n + 1][..n] == rs[..n];
  }

  lemma {:induction false} GroupsStay(s: State, rs: seq<Result>, now: Time, res: Result, path: Path)
    requires GoesTo(s.db.devices, res, path)
    ensures GoesTo(PersistAll(s, rs, now).db.devices, res, path) == true
  {
    if rs != [] {
      var front, last := rs[..|rs| - 1], rs[|rs| - 1];
      GroupsStay(s, front, now, res, path);
      GroupsKept(PersistAll(s, front, now), last, now, res, path);
    }
  }

  lemma GroupsKept(s: State, other: Result, now: Time, res: Result, path: Path)
    requires GoesTo(s.db.devices, res, path) == true
    ensures GoesTo(Persist(s, other, now).db.devices, res, path) == true
  {
    PersistFiles(s, other, now);
  }

  /** The i-th result is the last capture of its device, and the path is its place. */
  ghost predicate IsTracked(s: State, rs: seq<Result>, now: Time, i: nat, path: Path) {
    Separate(s, rs) && IsLastCapture(s, rs, now, i) && GoesTo(s.db.devices, rs[i], path)
  }

  lemma {:induction false} InPlaceUntil(s: State, rs: seq<Result>, now: Time, i: nat, n: nat, path: Path)
    requires IsTracked(s, rs, now, i, path) == true
    requires i < n <= |rs|
    ensures InPlace(PersistAll(s, rs[..n], now), rs[i], path) == true
    decreases n
  {
    if n == i + 1 {
      InPlaceFirst(s, rs, now, i, path);
    } else {
      InPlaceUntil(s, rs, now, i, n - 1, path);
      InPlaceNext(s, rs, now, i, n - 1, path);
    }
  }

  lemma InPlaceFirst(s: State, rs: seq<Result>, now: Time, i: nat, path: Path)
    requires IsTracked(s, rs, now, i, path) == true
    ensures InPlace(PersistAll(s, rs[..i + 1], now), rs[i], path) == true
  {
    PersistNext(s, rs, now, i);
    GroupsStay(s, rs[..i], now, rs[i], path);
    CaptureInPlace(PersistAll(s, rs[..i], now), rs[i], now, path);
  }

  lemma InPlaceNext(s: State, rs: seq<Result>, now: Time, i: nat, n: nat, path: Path)
    requires IsTracked(s, rs, now, i, path) == true && i < n < |rs|
    requires InPlace(PersistAll(s, rs[..n], now), rs[i], path) == true
    ensures InPlace(PersistAll(s, rs[..n + 1], now), rs[i], path) == true
  {
    var s1 := PersistAll(s, rs[..n], now);
    PersistNext(s, rs, now, n);
    assert !CapturesFor(s, rs, now, n, rs[i].device);
    if Applies(s1, rs[n]) {
      PathsStable(s, rs[..n], now, rs[n]);
      PathGoesTo(s.db, rs[i]);
      assert PathFor(s.db, rs[n]) != PathFor(s.db, rs[i]);
    }
    StaysInPlace(s1, rs[n], now, rs[i], path);
  }

  lemma StaysInPlace(s: State, other: Result, now: Time, res: Result, path: Path)
    requires InPlace(s, res, path) == true
    requires Applies(s, other) ==> other.device != res.device && PathFor(s.db, other) != path
    ensures InPlace(Persist(s, other, now), res, path) == true
  {
    PersistFiles(s, other, now);
  }

  /**
   * Once all results are handled, each device's last capture is in its place: under the directory of the device's
   * first group, in the file of its name, with the device pointing there; provided no two devices share a path.
   */
  lemma LastCaptureInPlace(s: State, rs: seq<Result>, now: Time, i: nat, path: Path)
    requires Separate(s, rs) && IsLastCapture(s, rs, now, i) && GoesTo(s.db.devices, rs[i], path)
    ensures InPlace(PersistAll(s, rs, now), rs[i], path)
  {
    InPlaceUntil(s, rs, now, i, |rs|, path);
    assert rs[..|rs|] == rs;
  }
}
