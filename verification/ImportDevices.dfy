/**
 * The CSV bulk import of devices (`import_csv` and `_parse_bool` in src/kiroku/web/import_devices.py).
 */
module ImportDevices {
  import opened Basics
  import opened Lines
  import opened Targeting

  type GroupId = nat
  type CredentialId = nat

  datatype Result<+T, +E> = Ok(value: T) | Err(error: E)

  // ----- reading cells -----

  function LowerChar(c: char): char {
    if 'A' <= c <= 'Z' then c - 'A' + 'a' else c
  }

  function Lower(s: string): string {
    seq(|s|, i requires 0 <= i < |s| => LowerChar(s[i]))
  }

  /** The key of a column: trimmed, in lower case, with one alias. */
  function ColumnKey(original: string): string {
    var key := Lower(Strip(original));
    if key == "credential" then "credentials" else key
  }

  /** `_normalize_headers(...).get(key)`: the last column with that key. */
  function ColumnOf(header: seq<string>, key: string): Option<string> {
    if header == [] then None
    else if ColumnKey(header[|header| - 1]) == key then Some(header[|header| - 1])
    else ColumnOf(header[..|header| - 1], key)
  }

  /** `row.get(column) or ""` on the dictionary made of a row: the last column of that name, if the row is long enough. */
  function CellOf(header: seq<string>, row: seq<string>, column: string): string {
    if header == [] then ""
    else
      var n := |header| - 1;
      if header[n] == column then (if n < |row| then row[n] else "") else CellOf(header[..n], row, column)
  }

  function Cell(header: seq<string>, row: seq<string>, key: string): string {
    Strip(CellOf(header, row, ColumnOf(header, key).GetOr("")))
  }

  /** The cells of one row. */
  datatype Fields = Fields(
    name: string, hostname: string, port: string, description: string, make: string, model: string, role: string,
    group: string, platform: string, transport: string, driverKind: string, credentials: string, enabled: string,
    workerPool: string)

  function Read(header: seq<string>, row: seq<string>): Fields {
    Fields(
      Cell(header, row, "name"), Cell(header, row, "hostname"), Cell(header, row, "port"),
      Cell(header, row, "description"), Cell(header, row, "make"), Cell(header, row, "model"), Cell(header, row, "role"),
      Cell(header, row, "group"), Cell(header, row, "platform"), Cell(header, row, "transport"),
      Cell(header, row, "driver_kind"), Cell(header, row, "credentials"), Cell(header, row, "enabled"),
      Cell(header, row, "worker_pool"))
  }

  function MissingColumns(header: seq<string>): seq<string> {
    (if ColumnOf(header, "name").None? then ["name"] else [])
    + (if ColumnOf(header, "hostname").None? then ["hostname"] else [])
    + (if ColumnOf(header, "group").None? then ["group"] else [])
  }

  // ----- checking a row -----

  datatype Error =
    | NameRequired | DuplicateName | HostnameRequired | BadPort | GroupRequired | UnknownGroup(name: string)
    | UnknownCredential | BadTransport | BadDriverKind | BadBoolean | MissingRequired(columns: seq<string>)

  /** `_parse_bool`: blank means no change. */
  function ParseBool(value: string): Result<Option<bool>, Error> {
    var v := Lower(Strip(value));
    if v == "" then Ok(None)
    else if v in {"1", "true", "yes", "y", "t"} then Ok(Some(true))
    else if v in {"0", "false", "no", "n", "f"} then Ok(Some(false))
    else Err(BadBoolean)
  }

  /** The names in a group cell: split at commas, trimmed, without blanks. */
  function GroupNames(cell: string, name: string): seq<string>
    decreases |cell|
  {
    if cell == "" || cell[0] == ',' then
      (if Strip(name) == "" then [] else [Strip(name)]) + (if cell == "" then [] else GroupNames(cell[1..], ""))
    else GroupNames(cell[1..], name + [cell[0]])
  }

  /** What the checks look up, and how the cells the model does not read are parsed. */
  datatype Lookup = Lookup(
    groups: map<string, GroupId>, credentials: map<string, CredentialId>,
    parsePort: string -> Option<int>, transports: set<string>, driverKinds: set<string>)

  function FindGroups(groups: map<string, GroupId>, names: seq<string>): Result<seq<GroupId>, Error> {
    if names == [] then Ok([])
    else if names[0] !in groups then Err(UnknownGroup(names[0]))
    else match FindGroups(groups, names[1..])
      case Err(e) => Err(e)
      case Ok(ids) => Ok([groups[names[0]]] + ids)
  }

  /** A row that passed every check; None is a blank cell. */
  datatype Plan = Plan(
    hostname: string, port: Option<int>, description: Option<string>, make: Option<string>, model: Option<string>,
    role: Option<string>, groups: seq<GroupId>, platform: Option<string>, transport: Option<string>,
    driverKind: Option<string>, credential: Option<CredentialId>, enabled: Option<bool>, workerPool: Option<string>)

  function NonBlank(s: string): Option<string> {
    if s == "" then None else Some(s)
  }

  /** The checks that need no other row, after those of the name. */
  function Check(at: Lookup, f: Fields): Result<Plan, Error> {
    var port := if f.port == "" then None else at.parsePort(f.port);
    var names := GroupNames(f.group, "");
    var groups := FindGroups(at.groups, names);
    var enabled := ParseBool(f.enabled);
    if f.hostname == "" then Err(HostnameRequired)
    else if f.port != "" && port.None? then Err(BadPort)
    else if names == [] then Err(GroupRequired)
    else if groups.Err? then Err(groups.error)
    else if f.credentials != "" && f.credentials !in at.credentials then Err(UnknownCredential)
    else if f.transport != "" && f.transport !in at.transports then Err(BadTransport)
    else if f.driverKind != "" && f.driverKind !in at.driverKinds then Err(BadDriverKind)
    else if enabled.Err? then Err(enabled.error)
    else Ok(Plan(
      f.hostname, port, NonBlank(f.description), NonBlank(f.make), NonBlank(f.model), NonBlank(f.role), groups.value,
      NonBlank(f.platform), NonBlank(f.transport), NonBlank(f.driverKind),
      if f.credentials == "" then None else Some(at.credentials[f.credentials]), enabled.value, NonBlank(f.workerPool)))
  }

  /** A row as the rest of the file sees it: its name, and what its own checks say. */
  datatype Row = Row(name: string, check: Result<Plan, Error>)

  function ReadRow(at: Lookup, header: seq<string>, cells: seq<string>): Row {
    var f := Read(header, cells);
    Row(f.name, if f.name == "" then Err(NameRequired) else Check(at, f))
  }

  function ReadRows(at: Lookup, header: seq<string>, table: seq<seq<string>>): seq<Row> {
    seq(|table|, i requires 0 <= i < |table| => ReadRow(at, header, table[i]))
  }

  /** The checks of a row, with that of the names above it in their place. */
  function Validate(seen: set<string>, row: Row): Result<Plan, Error> {
    if row.name in seen then Err(DuplicateName) else row.check
  }

  // ----- devices -----

  /** The columns of a device that the import writes. */
  datatype Info = Info(
    hostname: string, port: Option<int>, description: Option<string>, make: Option<string>, model: Option<string>,
    role: Option<string>, groups: seq<GroupId>, platform: Option<string>, transport: Option<string>,
    driverKind: Option<string>, credential: Option<CredentialId>, enabled: bool, workerPool: Option<string>)

  function Create(p: Plan): Info {
    Info(p.hostname, p.port, p.description, p.make, p.model, p.role, p.groups, p.platform, p.transport, p.driverKind,
         p.credential, p.enabled.GetOr(true), p.workerPool)
  }

  /** The listed groups that are not there yet. */
  function Missing(have: set<GroupId>, groups: seq<GroupId>): seq<GroupId> {
    if groups == [] then []
    else (if groups[0] in have then [] else [groups[0]]) + Missing(have, groups[1..])
  }

  function Update(d: Info, p: Plan): Info {
    Info(p.hostname, p.port.OrElse(d.port), p.description.OrElse(d.description), p.make.OrElse(d.make),
         p.model.OrElse(d.model), p.role.OrElse(d.role), d.groups + Missing(Elements(d.groups), p.groups),
         p.platform.OrElse(d.platform), p.transport.OrElse(d.transport), p.driverKind.OrElse(d.driverKind),
         p.credential.OrElse(d.credential), p.enabled.GetOr(d.enabled), p.workerPool.OrElse(d.workerPool))
  }

  /** What one row makes of the device of its name. */
  function Upsert(d: Option<Info>, p: Plan): Info {
    match d
    case None => Create(p)
    case Some(info) => Update(info, p)
  }

  // ----- the whole file -----

  datatype Action = Created | Updated

  datatype RowResult = RowResult(line: int, name: string, error: Option<Error>, action: Action)

  /** Where the loop stands: the loaded devices as changed so far, the new ones, the names met and the results. */
  datatype Progress = Progress(
    session: map<string, Info>, added: seq<(string, Info)>, updated: nat, seen: set<string>, results: seq<RowResult>)

  function Turn(p: Progress, row: Row, line: int): Progress {
    var action := if row.name in p.session then Updated else Created;
    match Validate(p.seen, row)
    case Err(e) => p.(results := p.results + [RowResult(line, row.name, Some(e), action)])
    case Ok(plan) =>
      var results := p.results + [RowResult(line, row.name, None, action)];
      if row.name in p.session then
        Progress(p.session[row.name := Update(p.session[row.name], plan)], p.added, p.updated + 1, p.seen + {row.name}, results)
      else
        Progress(p.session, p.added + [(row.name, Create(plan))], p.updated, p.seen + {row.name}, results)
  }

  function Turns(stored: map<string, Info>, rows: seq<Row>): Progress {
    if rows == [] then Progress(stored, [], 0, {}, [])
    else
      var n := |rows| - 1;
      Turn(Turns(stored, rows[..n]), rows[n], n + 2)
  }

  predicate Failed(results: seq<RowResult>) {
    exists i :: 0 <= i < |results| && results[i].error.Some?
  }

  function WithAdded(session: map<string, Info>, added: seq<(string, Info)>): map<string, Info> {
    if added == [] then session
    else WithAdded(session, added[..|added| - 1])[added[|added| - 1].0 := added[|added| - 1].1]
  }

  /** How the mapper writes a device's list of groups when the list names one twice: with an insert for each entry, of
      which the key of the membership table refuses the second, or with one for each group. */
  datatype Inserts = PerEntry | PerGroup

  predicate Repeats(groups: seq<GroupId>) {
    groups != [] && (groups[0] in groups[1..] || Repeats(groups[1..]))
  }

  function OneEach(d: Info): Info {
    d.(groups := FirstOccurrences(d.groups))
  }

  /** The memberships as stored have each group once; or the key refuses them, and the transaction with them. */
  function Commit(devices: map<string, Info>, inserts: Inserts): Option<map<string, Info>> {
    if inserts.PerEntry? && exists n | n in devices :: Repeats(devices[n].groups) then None
    else Some(map n | n in devices :: OneEach(devices[n]))
  }

  /** Rejected: some row is in error. Refused: the commit raises. Stored: with the counts. */
  datatype Verdict = Rejected | Refused | Stored(created: nat, updated: nat)

  /** What is stored afterwards, and how the import ends. */
  function Import(stored: map<string, Info>, rows: seq<Row>, inserts: Inserts): (map<string, Info>, Verdict) {
    var p := Turns(stored, rows);
    if Failed(p.results) then (stored, Rejected)
    else match Commit(WithAdded(p.session, p.added), inserts)
      case None => (stored, Refused)
      case Some(devices) => (devices, Stored(|p.added|, p.updated))
  }

  // ----- closed form -----

  /** Every row is valid by itself and no name comes twice. */
  ghost predicate Fine(rows: seq<Row>) {
    && (forall row | row in rows :: row.check.Ok?)
    && (forall i, j :: 0 <= i < j < |rows| ==> rows[i].name != rows[j].name)
  }

  function RowFor(rows: seq<Row>, n: string): (r: Option<Row>)
    ensures r.Some? <==> exists row :: row in rows && row.name == n
    ensures r.Some? ==> r.value in rows && r.value.name == n
  {
    if rows == [] then None
    else
      var front, last := rows[..|rows| - 1], rows[|rows| - 1];
      assert rows == front + [last];
      if last.name == n then Some(last) else RowFor(front, n)
  }

  /** The device of name n after a file without errors: changed by its row, or as stored. */
  function Expected(stored: map<string, Info>, rows: seq<Row>, n: string): Option<Info> {
    match RowFor(rows, n)
    case None => Get(stored, n)
    case Some(row) => if row.check.Ok? then Some(Upsert(Get(stored, n), row.check.value)) else Get(stored, n)
  }

  function NewRows(stored: map<string, Info>, rows: seq<Row>): set<Row> {
    set row | row in rows && row.name !in stored
  }

  function AddedFor(added: seq<(string, Info)>, n: string): Option<Info> {
    if added == [] then None
    else if added[|added| - 1].0 == n then Some(added[|added| - 1].1)
    else AddedFor(added[..|added| - 1], n)
  }

  lemma {:induction false} WithAddedGet(session: map<string, Info>, added: seq<(string, Info)>, n: string)
    ensures Get(WithAdded(session, added), n) == AddedFor(added, n).OrElse(Get(session, n))
  {
    if added != [] {
      WithAddedGet(session, added[..|added| - 1], n);
    }
  }

  ghost predicate DeviceStands(stored: map<string, Info>, rows: seq<Row>, p: Progress, n: string) {
    if n in stored then AddedFor(p.added, n) == None && Get(p.session, n) == Expected(stored, rows, n)
    else AddedFor(p.added, n) == Expected(stored, rows, n)
  }

  /** How the loop stands after rows without errors. */
  ghost predicate Stands(stored: map<string, Info>, rows: seq<Row>, p: Progress) {
    && !Failed(p.results)
    && p.session.Keys == stored.Keys
    && (forall n :: n in p.seen <==> RowFor(rows, n).Some?)
    && (forall n :: DeviceStands(stored, rows, p, n))
    && |p.added| == |NewRows(stored, rows)| && |p.added| + p.updated == |rows|
  }

  lemma FineFront(rows: seq<Row>)
    requires rows != []
    ensures var front, last := rows[..|rows| - 1], rows[|rows| - 1];
      Fine(rows) <==> Fine(front) && last.check.Ok? && RowFor(front, last.name).None?
  {
    var front, last := rows[..|rows| - 1], rows[|rows| - 1];
    assert rows == front + [last];
    if RowFor(front, last.name).Some? {
      var row := RowFor(front, last.name).value;
      var i :| 0 <= i < |front| && front[i] == row;
      assert rows[i].name == rows[|rows| - 1].name;
    }
  }

  lemma FailedFront(results: seq<RowResult>, more: RowResult)
    ensures Failed(results + [more]) <==> Failed(results) || more.error.Some?
  {
    var all := results + [more];
    assert all[|results|] == more;
    assert forall i :: 0 <= i < |results| ==> all[i] == results[i];
  }

  lemma NewRowsFront(stored: map<string, Info>, front: seq<Row>, last: Row)
    requires last !in front
    ensures |NewRows(stored, front + [last])| == |NewRows(stored, front)| + if last.name in stored then 0 else 1
  {
    var all := front + [last];
    if last.name in stored {
      assert NewRows(stored, all) == NewRows(stored, front);
    } else {
      assert NewRows(stored, all) == NewRows(stored, front) + {last};
    }
  }

  lemma RowForStep(front: seq<Row>, last: Row, n: string)
    ensures RowFor(front + [last], n) == if n == last.name then Some(last) else RowFor(front, n)
  {
    assert (front + [last])[..|front|] == front;
  }

  lemma DeviceTurn(
    stored: map<string, Info>, front: seq<Row>, last: Row, p: Progress, p': Progress, n: string)
    requires DeviceStands(stored, front, p, n) && p.session.Keys == stored.Keys
    requires last.check.Ok? && RowFor(front, last.name).None?
    requires var plan := last.check.value;
      if last.name in p.session
      then p'.session == p.session[last.name := Update(p.session[last.name], plan)] && p'.added == p.added
      else p'.session == p.session && p'.added == p.added + [(last.name, Create(plan))]
    ensures DeviceStands(stored, front + [last], p', n) == true
  {
    RowForStep(front, last, n);
    var add := (last.name, Create(last.check.value));
    assert (p.added + [add])[..|p.added|] == p.added;
    assert AddedFor(p.added + [add], n) == if last.name == n then Some(add.1) else AddedFor(p.added, n);
  }

  lemma StandsTurn(stored: map<string, Info>, front: seq<Row>, last: Row, p: Progress, line: int)
    requires Stands(stored, front, p)
    requires last.check.Ok? && RowFor(front, last.name).None?
    ensures Stands(stored, front + [last], Turn(p, last, line))
  {
    var rows, p' := front + [last], Turn(p, last, line);
    FailedFront(p.results, p'.results[|p.results|]);
    NewRowsFront(stored, front, last);
    forall n ensures DeviceStands(stored, rows, p', n) {
      assert DeviceStands(stored, front, p, n);
      DeviceTurn(stored, front, last, p, p', n);
    }
    forall n ensures n in p'.seen <==> RowFor(rows, n).Some? {
      RowForStep(front, last, n);
    }
  }

  /** Without errors the loop ends as it should; and it ends without errors only then. */
  lemma {:induction false} TurnsFine(stored: map<string, Info>, rows: seq<Row>)
    ensures Fine(rows) ==> Stands(stored, rows, Turns(stored, rows)) == true
    ensures !Failed(Turns(stored, rows).results) ==> Fine(rows)
    ensures Turns(stored, rows).session.Keys == stored.Keys
  {
    if rows != [] {
      var front, last := rows[..|rows| - 1], rows[|rows| - 1];
      var p := Turns(stored, front);
      TurnsFine(stored, front);
      FineFront(rows);
      TurnFails(p, last, |rows| + 1);
      if Fine(rows) {
        StandsTurn(stored, front, last, p, |rows| + 1);
        assert rows == front + [last];
      }
    } else {
      StandsAtStart(stored);
    }
  }

  lemma TurnFails(p: Progress, row: Row, line: int)
    ensures !Failed(Turn(p, row, line).results) ==> !Failed(p.results) && row.check.Ok? && row.name !in p.seen
    ensures Turn(p, row, line).session.Keys == p.session.Keys
  {
    var p' := Turn(p, row, line);
    FailedFront(p.results, p'.results[|p.results|]);
  }

  lemma StandsAtStart(stored: map<string, Info>)
    ensures Stands(stored, [], Progress(stored, [], 0, {}, []))
  {
    assert NewRows(stored, []) == {};
  }

  // ----- what the import promises -----

  /** The devices of the session after a file without errors. */
  lemma SessionExact(stored: map<string, Info>, rows: seq<Row>)
    requires Fine(rows)
    ensures var p := Turns(stored, rows);
      && (forall n :: Get(WithAdded(p.session, p.added), n) == Expected(stored, rows, n))
      && |p.added| == |NewRows(stored, rows)| && |p.added| + p.updated == |rows|
  {
    TurnsFine(stored, rows);
    var p := Turns(stored, rows);
    forall n ensures Get(WithAdded(p.session, p.added), n) == Expected(stored, rows, n) {
      WithAddedGet(p.session, p.added, n);
      assert DeviceStands(stored, rows, p, n);
    }
  }

  lemma SameDevices(a: map<string, Info>, b: map<string, Info>)
    requires forall n :: Get(a, n) == Get(b, n)
    ensures a == b
  {
    forall n ensures n in a <==> n in b {
      assert Get(a, n) == Get(b, n);
    }
    forall n | n in a ensures a[n] == b[n] {
      assert Get(a, n) == Get(b, n);
    }
    SameMap(a, b);
  }

  lemma {:induction false} MissingExact(have: set<GroupId>, groups: seq<GroupId>)
    ensures forall g :: g in Missing(have, groups) <==> g in groups && g !in have
    ensures (forall g | g in groups :: g in have) ==> Missing(have, groups) == []
  {
    if groups != [] {
      MissingExact(have, groups[1..]);
      assert groups == [groups[0]] + groups[1..];
    }
  }

  // ----- the key of the membership table -----

  /** What the key keeps: no device is twice in a group. */
  ghost predicate Keyed(devices: map<string, Info>) {
    forall n | n in devices :: Distinct(devices[n].groups)
  }

  lemma {:induction false} RepeatsExact(groups: seq<GroupId>)
    ensures Repeats(groups) <==> !Distinct(groups)
  {
    if groups != [] {
      RepeatsExact(groups[1..]);
      if groups[0] in groups[1..] {
        var k :| 0 <= k < |groups| - 1 && groups[1..][k] == groups[0];
        assert groups[0] == groups[k + 1];
      }
      if Distinct(groups[1..]) && groups[0] !in groups[1..] {
        forall i, j | 0 <= i < j < |groups| ensures groups[i] != groups[j] {
          assert groups[j] == groups[1..][j - 1];
          assert i > 0 ==> groups[i] == groups[1..][i - 1];
        }
      }
      if !Distinct(groups[1..]) {
        var i, j :| 0 <= i < j < |groups| - 1 && groups[1..][i] == groups[1..][j];
        assert groups[i + 1] == groups[j + 1];
      }
    }
  }

  lemma {:induction false} FirstOfDistinct(s: seq<GroupId>)
    requires Distinct(s)
    ensures FirstOccurrences(s) == s
  {
    if |s| > 0 {
      var n := |s| - 1;
      assert s == s[..n] + [s[n]];
      FirstOfDistinct(s[..n]);
      FirstOccurrencesStep(s[..n], s[n]);
    }
  }

  /** Longer lists keep what shorter ones gave. */
  lemma {:induction false} FirstOfMore(s: seq<GroupId>, more: seq<GroupId>)
    ensures FirstOccurrences(s) <= FirstOccurrences(s + more)
  {
    if |more| == 0 {
      assert s + more == s;
    } else {
      var n := |more| - 1;
      FirstOfMore(s, more[..n]);
      FirstOccurrencesStep(s + more[..n], more[n]);
      assert s + more == s + more[..n] + [more[n]];
    }
  }

  /** A group outside `have` is listed twice. */
  ghost predicate Twice(have: set<GroupId>, groups: seq<GroupId>) {
    exists i, j :: 0 <= i < j < |groups| && groups[i] == groups[j] && groups[i] !in have
  }

  /** The row names a group twice that its device is not in. */
  ghost predicate Doubles(stored: map<string, Info>, row: Row) {
    row.check.Ok? && Twice(Elements(Groups(stored, row.name)), row.check.value.groups)
  }

  function Groups(stored: map<string, Info>, n: string): seq<GroupId> {
    if n in stored then stored[n].groups else []
  }

  lemma TwiceCons(have: set<GroupId>, g: GroupId, rest: seq<GroupId>)
    ensures Twice(have, [g] + rest) <==> Twice(have, rest) || (g in rest && g !in have)
  {
    var groups := [g] + rest;
    if Twice(have, rest) {
      var i, j :| 0 <= i < j < |rest| && rest[i] == rest[j] && rest[i] !in have;
      assert groups[i + 1] == groups[j + 1];
    }
    if g in rest && g !in have {
      var j :| 0 <= j < |rest| && rest[j] == g;
      assert groups[0] == groups[j + 1];
    }
    if Twice(have, groups) {
      var i, j :| 0 <= i < j < |groups| && groups[i] == groups[j] && groups[i] !in have;
      assert rest[j - 1] == groups[j];
      assert i > 0 ==> rest[i - 1] == groups[i];
    }
  }

  lemma {:induction false} MissingDistinct(have: set<GroupId>, groups: seq<GroupId>)
    ensures Distinct(Missing(have, groups)) <==> !Twice(have, groups)
  {
    if |groups| > 0 {
      var g, rest := groups[0], groups[1..];
      assert groups == [g] + rest;
      MissingDistinct(have, rest);
      MissingExact(have, rest);
      TwiceCons(have, g, rest);
      DistinctCons(g, Missing(have, rest));
      assert [] + Missing(have, rest) == Missing(have, rest);
    }
  }

  lemma DistinctCons(g: GroupId, s: seq<GroupId>)
    ensures Distinct([g] + s) <==> g !in s && Distinct(s)
  {
    var all := [g] + s;
    if g in s {
      var k :| 0 <= k < |s| && s[k] == g;
      assert all[0] == all[k + 1];
    }
    if !Distinct(s) {
      var i, j :| 0 <= i < j < |s| && s[i] == s[j];
      assert all[i + 1] == all[j + 1];
    }
  }

  lemma DistinctAppend(s: seq<GroupId>, t: seq<GroupId>)
    requires Distinct(s) && forall g | g in t :: g !in s
    ensures Distinct(s + t) <==> Distinct(t)
  {
    var all := s + t;
    if !Distinct(t) {
      var i, j :| 0 <= i < j < |t| && t[i] == t[j];
      assert all[|s| + i] == all[|s| + j];
    } else {
      forall i, j | 0 <= i < j < |all| ensures all[i] != all[j] {
        assert j >= |s| ==> all[j] in t && (i < |s| ==> all[i] in s) && (i >= |s| ==> all[i] == t[i - |s|]);
      }
    }
  }

  /** In the session the device's list repeats a group exactly when its row doubles one. */
  lemma DoublesExact(stored: map<string, Info>, row: Row)
    requires Keyed(stored) && row.check.Ok?
    ensures Repeats(Upsert(Get(stored, row.name), row.check.value).groups) <==> Doubles(stored, row)
  {
    var p, have := row.check.value, Groups(stored, row.name);
    RepeatsExact(Upsert(Get(stored, row.name), p).groups);
    MissingDistinct(Elements(have), p.groups);
    if row.name in stored {
      MissingExact(Elements(have), p.groups);
      DistinctAppend(have, Missing(Elements(have), p.groups));
    } else {
      assert Elements(have) == {};
      AllMissing(p.groups);
    }
  }

  lemma {:induction false} AllMissing(groups: seq<GroupId>)
    ensures Missing({}, groups) == groups
  {
    if groups != [] {
      AllMissing(groups[1..]);
    }
  }

  /** A named device repeats a group in the session exactly when its row doubles one; any other repeats none. */
  lemma SessionRepeats(stored: map<string, Info>, rows: seq<Row>, n: string)
    requires Keyed(stored) && Fine(rows)
    ensures var d := Expected(stored, rows, n);
      d.Some? && Repeats(d.value.groups) <==> RowFor(rows, n).Some? && Doubles(stored, RowFor(rows, n).value)
  {
    if RowFor(rows, n).Some? {
      DoublesExact(stored, RowFor(rows, n).value);
    } else if n in stored {
      RepeatsExact(stored[n].groups);
    }
  }

  /** The commit of a file without errors is refused exactly when some row doubles a group and each entry is written. */
  lemma RefusedExact(stored: map<string, Info>, rows: seq<Row>, devices: map<string, Info>, inserts: Inserts)
    requires Keyed(stored) && Fine(rows) && forall n :: Get(devices, n) == Expected(stored, rows, n)
    ensures Commit(devices, inserts).None? <==> inserts.PerEntry? && exists row :: row in rows && Doubles(stored, row)
  {
    forall n ensures n in devices && Repeats(devices[n].groups)
      <==> RowFor(rows, n).Some? && Doubles(stored, RowFor(rows, n).value) {
      SessionRepeats(stored, rows, n);
      assert Get(devices, n) == Expected(stored, rows, n);
    }
    forall row | row in rows ensures RowFor(rows, row.name) == Some(row) {
      RowForUnique(rows, row);
    }
  }

  /** The stored device of name n: the session's, each group once. */
  function ExpectedStored(stored: map<string, Info>, rows: seq<Row>, n: string): Option<Info> {
    match Expected(stored, rows, n)
    case None => None
    case Some(d) => Some(OneEach(d))
  }

  /**
   * All or nothing. A bad row, or a name that comes twice, and nothing is stored; a group doubled, where each entry is
   * written, and the commit raises and nothing is stored. Else every named device is changed or created by its row,
   * every other one is as it was, the counts say which were new, and no device is twice in a group.
   */
  lemma ImportExact(stored: map<string, Info>, rows: seq<Row>, inserts: Inserts)
    requires Keyed(stored)
    ensures var (devices, verdict) := Import(stored, rows, inserts);
      && (verdict == Rejected <==> !Fine(rows))
      && (verdict == Refused <==> Fine(rows) && inserts.PerEntry? && exists row :: row in rows && Doubles(stored, row))
      && (verdict == Rejected || verdict == Refused ==> devices == stored)
      && (verdict.Stored? ==>
            && (forall n :: Get(devices, n) == ExpectedStored(stored, rows, n))
            && verdict.created == |NewRows(stored, rows)| && verdict.created + verdict.updated == |rows|)
      && Keyed(devices)
  {
    TurnsFine(stored, rows);
    if Fine(rows) {
      SessionExact(stored, rows);
      var p := Turns(stored, rows);
      RefusedExact(stored, rows, WithAdded(p.session, p.added), inserts);
    }
  }

  /** A device that no row names is stored as it was. */
  lemma UnnamedKept(stored: map<string, Info>, rows: seq<Row>, n: string)
    requires Keyed(stored) && RowFor(rows, n).None?
    ensures ExpectedStored(stored, rows, n) == Get(stored, n)
  {
    if n in stored {
      FirstOfDistinct(stored[n].groups);
    }
  }

  /** A row changes a device that it made or changed no further, once that is stored. */
  lemma StoredTwice(d: Option<Info>, p: Plan)
    ensures OneEach(Update(OneEach(Upsert(d, p)), p)) == OneEach(Upsert(d, p))
    ensures forall g | g in p.groups :: g in OneEach(Upsert(d, p)).groups
  {
    var info := Upsert(d, p);
    if d.Some? {
      MissingExact(Elements(d.value.groups), p.groups);
    }
    MissingExact(Elements(OneEach(info).groups), p.groups);
    assert OneEach(info).groups + [] == OneEach(info).groups;
    FirstOfDistinct(OneEach(info).groups);
  }

  /** Importing a stored file again changes nothing: no device is created and every row is an update. */
  lemma ImportTwice(stored: map<string, Info>, rows: seq<Row>, inserts: Inserts)
    requires Keyed(stored) && Import(stored, rows, inserts).1.Stored?
    ensures var devices := Import(stored, rows, inserts).0;
      Import(devices, rows, inserts) == (devices, Stored(0, |rows|))
  {
    var devices := Import(stored, rows, inserts).0;
    var (again, verdict) := Import(devices, rows, inserts);
    ImportExact(stored, rows, inserts);
    ImportExact(devices, rows, inserts);
    forall row | row in rows ensures row.name in devices && !Doubles(devices, row) {
      StoredRow(stored, rows, inserts, row);
    }
    assert NewRows(devices, rows) == {};
    forall n ensures Get(again, n) == Get(devices, n) {
      SameAgain(stored, devices, rows, n);
    }
    SameDevices(again, devices);
  }

  lemma StoredRow(stored: map<string, Info>, rows: seq<Row>, inserts: Inserts, row: Row)
    requires Keyed(stored) && Import(stored, rows, inserts).1.Stored? && row in rows
    ensures var devices := Import(stored, rows, inserts).0; row.name in devices && !Doubles(devices, row)
  {
    ImportExact(stored, rows, inserts);
    RowForUnique(rows, row);
    StoredTwice(Get(stored, row.name), row.check.value);
    assert Get(Import(stored, rows, inserts).0, row.name) == ExpectedStored(stored, rows, row.name);
  }

  lemma SameAgain(stored: map<string, Info>, devices: map<string, Info>, rows: seq<Row>, n: string)
    requires Keyed(stored) && Fine(rows) && Keyed(devices)
    requires Get(devices, n) == ExpectedStored(stored, rows, n)
    ensures ExpectedStored(devices, rows, n) == Get(devices, n)
  {
    if RowFor(rows, n).Some? {
      StoredTwice(Get(stored, n), RowFor(rows, n).value.check.value);
    } else {
      UnnamedKept(devices, rows, n);
    }
  }

  lemma FinePermuted(rows: seq<Row>, rows': seq<Row>)
    requires multiset(rows) == multiset(rows') && Fine(rows)
    ensures Fine(rows')
  {
    assert forall row :: row in rows <==> row in multiset(rows);
    assert forall row :: row in rows' <==> row in multiset(rows');
    DistinctMultiset(rows);
    DistinctMultiset(rows');
    forall i, j | 0 <= i < j < |rows'| ensures rows'[i].name != rows'[j].name {
      assert rows'[i] in rows && rows'[j] in rows && rows'[i] != rows'[j];
      var k, l :| 0 <= k < |rows| && 0 <= l < |rows| && rows[k] == rows'[i] && rows[l] == rows'[j];
      assert k < l || l < k;
    }
  }

  /** The row of a name is the same wherever it stands. */
  lemma RowForUnique(rows: seq<Row>, row: Row)
    requires Fine(rows) && row in rows
    ensures RowFor(rows, row.name) == Some(row)
  {
    var found := RowFor(rows, row.name).value;
    var i, j :| 0 <= i < |rows| && 0 <= j < |rows| && rows[i] == found && rows[j] == row;
    assert i == j;
  }

  /** The session after permuted rows is the same. */
  lemma SessionPermuted(stored: map<string, Info>, rows: seq<Row>, rows': seq<Row>)
    requires multiset(rows) == multiset(rows') && Fine(rows) && Fine(rows')
    ensures var (p, p') := (Turns(stored, rows), Turns(stored, rows'));
      && WithAdded(p.session, p.added) == WithAdded(p'.session, p'.added)
      && |p.added| == |p'.added| && p.updated == p'.updated
  {
    SessionExact(stored, rows);
    SessionExact(stored, rows');
    var p, p' := Turns(stored, rows), Turns(stored, rows');
    assert forall row :: row in rows <==> row in multiset(rows);
    assert forall row :: row in rows' <==> row in multiset(rows');
    assert NewRows(stored, rows) == NewRows(stored, rows');
    assert |rows| == |multiset(rows)| == |multiset(rows')| == |rows'|;
    forall n ensures Get(WithAdded(p.session, p.added), n) == Get(WithAdded(p'.session, p'.added), n) {
      if RowFor(rows, n).Some? {
        RowForUnique(rows', RowFor(rows, n).value);
      }
    }
    SameDevices(WithAdded(p.session, p.added), WithAdded(p'.session, p'.added));
  }

  /** The order of the rows does not matter. */
  lemma ImportPermuted(stored: map<string, Info>, rows: seq<Row>, rows': seq<Row>, inserts: Inserts)
    requires multiset(rows) == multiset(rows')
    ensures Import(stored, rows, inserts) == Import(stored, rows', inserts)
  {
    TurnsFine(stored, rows);
    TurnsFine(stored, rows');
    if Fine(rows') {
      FinePermuted(rows', rows);
    }
    if Fine(rows) {
      FinePermuted(rows, rows');
      SessionPermuted(stored, rows, rows');
    }
  }

  /** No device leaves the inventory or a group, whatever becomes of the file; and when it is stored, each row's device
      is in the groups of the row. */
  lemma GroupsGrow(stored: map<string, Info>, rows: seq<Row>, inserts: Inserts, n: string)
    requires Keyed(stored)
    ensures var (devices, verdict) := Import(stored, rows, inserts);
      && (n in stored ==> n in devices && stored[n].groups <= devices[n].groups)
      && (verdict.Stored? && RowFor(rows, n).Some? ==>
            && RowFor(rows, n).value.check.Ok? && n in devices
            && forall g | g in RowFor(rows, n).value.check.value.groups :: g in devices[n].groups)
  {
    ImportExact(stored, rows, inserts);
    if Import(stored, rows, inserts).1.Stored? {
      assert Get(Import(stored, rows, inserts).0, n) == ExpectedStored(stored, rows, n);
      if RowFor(rows, n).Some? {
        StoredTwice(Get(stored, n), RowFor(rows, n).value.check.value);
      }
      if n in stored {
        FirstOfDistinct(stored[n].groups);
        if RowFor(rows, n).Some? {
          FirstOfMore(stored[n].groups, Missing(Elements(stored[n].groups), RowFor(rows, n).value.check.value.groups));
        }
      }
    }
  }

  /** A row is reported good exactly when its own checks pass and no row above it that was good has its name. */
  lemma {:induction false} ResultsExact(stored: map<string, Info>, rows: seq<Row>)
    ensures Reported(rows, Turns(stored, rows)) == true
  {
    if rows != [] {
      var n := |rows| - 1;
      ResultsExact(stored, rows[..n]);
      assert rows == rows[..n] + [rows[n]];
      ReportedTurn(rows[..n], Turns(stored, rows[..n]), rows[n]);
    }
  }

  /** Each row so far has its result, in order, and the names met are those of the good ones. */
  ghost predicate Reported(rows: seq<Row>, p: Progress) {
    && |p.results| == |rows|
    && (forall i :: 0 <= i < |rows| ==> p.results[i].line == i + 2 && p.results[i].name == rows[i].name)
    && (forall i :: 0 <= i < |rows| ==> (p.results[i].error == None <==>
          rows[i].check.Ok? && !Above(rows, p.results, i, rows[i].name)))
    && (forall n :: n in p.seen <==> Above(rows, p.results, |rows|, n))
  }

  lemma ReportedTurn(rows: seq<Row>, p: Progress, row: Row)
    requires Reported(rows, p)
    ensures Reported(rows + [row], Turn(p, row, |rows| + 2)) == true
  {
    var rows', p' := rows + [row], Turn(p, row, |rows| + 2);
    assert p'.results == p.results + [p'.results[|rows|]];
    assert forall j :: 0 <= j < |rows| ==> rows'[j] == rows[j] && p'.results[j] == p.results[j];
    forall i, n | 0 <= i <= |rows| ensures Above(rows', p'.results, i, n) <==> Above(rows, p.results, i, n) {}
    forall n ensures Above(rows', p'.results, |rows'|, n)
      <==> Above(rows, p.results, |rows|, n) || (p'.results[|rows|].error == None && row.name == n) {
      assert rows'[|rows|] == row;
    }
  }

  /** One of the first i rows was good and has the name. */
  ghost predicate Above(rows: seq<Row>, results: seq<RowResult>, i: nat, n: string)
    requires i <= |rows| == |results|
  {
    exists j :: 0 <= j < i && results[j].error == None && rows[j].name == n
  }

  lemma TakeOut<T>(s: seq<T>, k: nat)
    requires k < |s|
    ensures multiset(s) == multiset(s[..k] + s[k + 1..]) + multiset{s[k]}
  {
    assert s == s[..k] + ([s[k]] + s[k + 1..]);
  }

  /** The order of the lines of a file is the order of its rows. */
  lemma {:induction false} LinesPermuted(at: Lookup, header: seq<string>, table: seq<seq<string>>, table': seq<seq<string>>)
    requires multiset(table) == multiset(table')
    ensures multiset(ReadRows(at, header, table)) == multiset(ReadRows(at, header, table'))
    decreases |table|
  {
    assert |table| == |multiset(table)| == |multiset(table')| == |table'|;
    if table != [] {
      var n, x := |table| - 1, table[|table| - 1];
      assert x in multiset(table');
      var k :| 0 <= k < |table'| && table'[k] == x;
      TakeOut(table, n);
      TakeOut(table', k);
      var front, rest := table[..n] + table[n + 1..], table'[..k] + table'[k + 1..];
      assert multiset(front) == multiset(table) - multiset{x} == multiset(rest);
      LinesPermuted(at, header, front, rest);
      ReadTakeOut(at, header, table, n);
      ReadTakeOut(at, header, table', k);
    }
  }

  lemma ReadTakeOut(at: Lookup, header: seq<string>, table: seq<seq<string>>, k: nat)
    requires k < |table|
    ensures multiset(ReadRows(at, header, table))
         == multiset(ReadRows(at, header, table[..k] + table[k + 1..])) + multiset{ReadRow(at, header, table[k])}
  {
    var rows := ReadRows(at, header, table);
    TakeOut(rows, k);
    assert ReadRows(at, header, table[..k] + table[k + 1..]) == rows[..k] + rows[k + 1..];
  }

  // ----- the code -----

  /** A device as the session holds it. */
  class Device {
    const name: string
    var info: Info

    constructor (name: string, info: Info)
      ensures this.name == name && this.info == info
    {
      this.name, this.info := name, info;
    }
  }

  /** Each loaded device under its name, as the progress says. */
  ghost predicate Holds(existing: map<string, Device>, session: map<string, Info>)
    reads existing.Values
  {
    && existing.Keys == session.Keys
    && forall n | n in existing :: existing[n].name == n && existing[n].info == session[n]
  }

  ghost predicate Pending(devices: seq<Device>, added: seq<(string, Info)>)
    reads devices
  {
    |devices| == |added| && forall k :: 0 <= k < |added| ==> (devices[k].name, devices[k].info) == added[k]
  }

  class Database {
    /** What is committed. */
    var devices: map<string, Info>

    constructor (devices: map<string, Info>)
      ensures this.devices == devices
    {
      this.devices := devices;
    }

    /** The query for all devices: objects of the session, which the database does not see until they are committed. */
    method Load() returns (existing: map<string, Device>)
      ensures Holds(existing, devices) && forall n | n in existing :: fresh(existing[n])
    {
      existing := map[];
      var left := devices.Keys;
      while left != {}
        invariant left <= devices.Keys && existing.Keys == devices.Keys - left
        invariant forall n | n in existing ::
          fresh(existing[n]) && existing[n].name == n && existing[n].info == devices[n]
      {
        ghost var some := Pick(left);
        var n :| n in left;
        var device := new Device(n, devices[n]);
        existing := existing[n := device];
        left := left - {n};
      }
    }

    /** One row: an error, a change of a loaded device, or a new one. */
    method ImportRow(
      existing: map<string, Device>, pending: seq<Device>, updated: nat, seen: set<string>, row: Row, line: int,
      ghost p: Progress)
      returns (pending': seq<Device>, updated': nat, seen': set<string>, result: RowResult)
      requires Holds(existing, p.session) && Pending(pending, p.added)
      requires forall d | d in pending :: d.name !in existing
      requires updated == p.updated && seen == p.seen
      modifies existing.Values
      ensures var p' := Turn(p, row, line);
        && Holds(existing, p'.session) && Pending(pending', p'.added)
        && updated' == p'.updated && seen' == p'.seen && p'.results == p.results + [result]
      ensures forall d | d in pending' :: d.name !in existing && (d in pending || fresh(d))
    {
      pending', updated', seen' := pending, updated, seen;
      var action := if row.name in existing then Updated else Created;
      match Validate(seen, row)
      case Err(e) => result := RowResult(line, row.name, Some(e), action);
      case Ok(plan) =>
        if row.name in existing {
          var device := existing[row.name];
          device.info := Update(device.info, plan);
          updated' := updated + 1;
        } else {
          var device := new Device(row.name, Create(plan));
          pending' := pending + [device];
        }
        seen' := seen + {row.name};
        result := RowResult(line, row.name, None, action);
    }

    /** The import of a parsed file. When the commit raises, the caller gets the exception and no results. */
    method ImportCsv(at: Lookup, header: seq<string>, table: seq<seq<string>>, inserts: Inserts)
      returns (results: seq<RowResult>, verdict: Verdict)
      modifies this
      ensures MissingColumns(header) != [] ==>
        && results == [RowResult(1, "", Some(MissingRequired(MissingColumns(header))), Created)]
        && devices == old(devices) && verdict == Rejected
      ensures MissingColumns(header) == [] ==>
        && (devices, verdict) == Import(old(devices), ReadRows(at, header, table), inserts)
        && results == if verdict == Refused then [] else Turns(old(devices), ReadRows(at, header, table)).results
    {
      if MissingColumns(header) != [] {
        return [RowResult(1, "", Some(MissingRequired(MissingColumns(header))), Created)], Rejected;
      }
      results, verdict := ImportRows(ReadRows(at, header, table), inserts);
    }

    method ImportRows(rows: seq<Row>, inserts: Inserts) returns (results: seq<RowResult>, verdict: Verdict)
      modifies this
      ensures (devices, verdict) == Import(old(devices), rows, inserts)
      ensures results == if verdict == Refused then [] else Turns(old(devices), rows).results
    {
      var existing := Load();
      ghost var p := Progress(devices, [], 0, {}, []);
      var pending: seq<Device>, updated: nat, seen := [], 0, {};
      results := [];
      for i := 0 to |rows|
        invariant devices == old(devices) && p == Turns(devices, rows[..i])
        invariant Holds(existing, p.session) && Pending(pending, p.added)
        invariant forall n | n in existing :: fresh(existing[n])
        invariant forall d | d in pending :: d.name !in existing
        invariant updated == p.updated && seen == p.seen && results == p.results
      {
        var result;
        pending, updated, seen, result := ImportRow(existing, pending, updated, seen, rows[i], i + 2, p);
        assert rows[..i + 1][..i] == rows[..i];
        p := Turn(p, rows[i], i + 2);
        results := results + [result];
      }
      assert rows[..|rows|] == rows;
      if exists i :: 0 <= i < |results| && results[i].error.Some? {
        return results, Rejected;
      }
      var session := Flush(existing, pending, p);
      var committed := Commit(session, inserts);
      if committed.None? {
        return [], Refused;
      }
      devices := committed.value;
      verdict := Stored(|pending|, updated);
    }

    /** What the flush writes: the loaded objects and the new ones. */
    method Flush(existing: map<string, Device>, pending: seq<Device>, ghost p: Progress)
      returns (stored: map<string, Info>)
      requires Holds(existing, p.session) && Pending(pending, p.added)
      ensures stored == WithAdded(p.session, p.added)
    {
      stored := map n | n in existing :: existing[n].info;
      SameMap(stored, p.session);
      for k := 0 to |pending|
        invariant stored == WithAdded(p.session, p.added[..k])
      {
        assert p.added[..k + 1][..k] == p.added[..k];
        stored := stored[pending[k].name := pending[k].info];
      }
      assert p.added[..|pending|] == p.added;
    }
  }
}
