/** What an import writes, cell by cell (`import_csv` in src/kiroku/web/import_devices.py). */
module ImportCells {
  import opened Basics
  import opened Lines
  import opened Targeting
  import opened Decimal
  import opened ImportDevices

  // ----- cells -----

  const UPPER := "ABCDEFGHIJKLMNOPQRSTUVWXYZ"
  const LOWER := "abcdefghijklmnopqrstuvwxyz"

  /** Lower case within ASCII: capital letters become small ones, all else stays. */
  lemma LowerLetters(c: char, k: nat)
    requires k < 26
    ensures Lower([UPPER[k]]) == [LOWER[k]]
    ensures !('A' <= c <= 'Z') ==> Lower([c]) == [c]
  {
  }

  lemma LowerEach(s: string, i: nat)
    requires i < |s|
    ensures |Lower(s)| == |s| && [Lower(s)[i]] == Lower([s[i]])
  {
  }

  /** A header names a column up to case and surrounding white space; "credential" stands for "credentials". */
  predicate Means(column: string, key: string) {
    var name := Lower(Strip(column));
    if name == "credential" then key == "credentials" else key == name
  }

  lemma {:induction false} ColumnOfIs(header: seq<string>, key: string, n: nat)
    requires n < |header| && Means(header[n], key)
    requires forall m | n < m < |header| :: !Means(header[m], key)
    ensures ColumnOf(header, key) == Some(header[n])
  {
    if n < |header| - 1 {
      ColumnOfIs(header[..|header| - 1], key, n);
    }
  }

  lemma {:induction false} CellOfIs(header: seq<string>, row: seq<string>, n: nat)
    requires n < |header| && forall m | n < m < |header| :: header[m] != header[n]
    ensures CellOf(header, row, header[n]) == if n < |row| then row[n] else ""
  {
    if n < |header| - 1 {
      CellOfIs(header[..|header| - 1], row, n);
    }
  }

  /** A cell is read from the last column that is meant, trimmed; a row too short has it blank. */
  lemma CellIs(header: seq<string>, row: seq<string>, key: string, n: nat)
    requires n < |header| && Means(header[n], key)
    requires forall m | n < m < |header| :: !Means(header[m], key)
    ensures Cell(header, row, key) == if n < |row| then Strip(row[n]) else ""
  {
    ColumnOfIs(header, key, n);
    CellOfIs(header, row, n);
  }

  lemma {:induction false} NoColumn(header: seq<string>, row: seq<string>, key: string)
    requires forall m | 0 <= m < |header| :: !Means(header[m], key)
    ensures ColumnOf(header, key) == None
  {
    if header != [] {
      NoColumn(header[..|header| - 1], row, key);
    }
  }

  /** The required columns that are missing are reported, and only those. */
  lemma MissingExactly(header: seq<string>, key: string)
    ensures key in MissingColumns(header) <==>
      key in {"name", "hostname", "group"} && forall m | 0 <= m < |header| :: !Means(header[m], key)
  {
    if n: nat :| n < |header| && Means(header[n], key) {
      LastMeant(header, key);
    } else {
      NoColumn(header, [], key);
    }
  }

  lemma {:induction false} LastMeant(header: seq<string>, key: string)
    requires exists n: nat :: n < |header| && Means(header[n], key)
    ensures ColumnOf(header, key).Some?
  {
    var last := |header| - 1;
    if !Means(header[last], key) {
      var n: nat :| n < |header| && Means(header[n], key);
      assert header[..last][n] == header[n];
      LastMeant(header[..last], key);
    }
  }

  // ----- groups -----

  /** The parts that are not blank, trimmed. */
  function Trimmed(parts: seq<string>): seq<string> {
    if parts == [] then []
    else (if Strip(parts[0]) == "" then [] else [Strip(parts[0])]) + Trimmed(parts[1..])
  }

  lemma {:induction false} GroupNamesFrom(cell: string, name: string)
    ensures var parts := Split(cell, ',');
      GroupNames(cell, name) == Trimmed([name + parts[0]] + parts[1..])
    decreases |cell|
  {
    var parts := Split(cell, ',');
    if cell == "" {
      assert name + "" == name && ([name] + [])[1..] == [];
    } else if cell[0] == ',' {
      var rest := Split(cell[1..], ',');
      GroupNamesFrom(cell[1..], "");
      assert parts == [""] + rest && parts[1..] == rest && name + "" == name;
      assert "" + rest[0] == rest[0] && [rest[0]] + rest[1..] == rest;
      assert ([name] + rest)[1..] == rest;
    } else {
      var rest := Split(cell[1..], ',');
      GroupNamesFrom(cell[1..], name + [cell[0]]);
      assert parts == [[cell[0]] + rest[0]] + rest[1..] && parts[1..] == rest[1..];
      assert (name + [cell[0]]) + rest[0] == name + ([cell[0]] + rest[0]);
    }
  }

  /** The names in a group cell are its comma-separated parts, trimmed, without the blank ones. */
  lemma GroupNamesAre(cell: string)
    ensures GroupNames(cell, "") == Trimmed(Split(cell, ','))
  {
    var parts := Split(cell, ',');
    GroupNamesFrom(cell, "");
    assert "" + parts[0] == parts[0] && [parts[0]] + parts[1..] == parts;
  }

  /** The groups of the names, in order. */
  ghost predicate AreGroups(groups: map<string, GroupId>, names: seq<string>, ids: seq<GroupId>) {
    |ids| == |names| && forall i | 0 <= i < |names| :: names[i] in groups && ids[i] == groups[names[i]]
  }

  /** All names are found, or the first that is not is reported. */
  lemma {:induction false} FindGroupsIs(groups: map<string, GroupId>, names: seq<string>)
    ensures match FindGroups(groups, names)
      case Ok(ids) => AreGroups(groups, names, ids)
      case Err(e) => exists i :: 0 <= i < |names| && names[i] !in groups && e == UnknownGroup(names[i])
                       && forall j | 0 <= j < i :: names[j] in groups
  {
    if names != [] && names[0] in groups {
      FindGroupsIs(groups, names[1..]);
      if FindGroups(groups, names[1..]).Err? {
        var i :| 0 <= i < |names| - 1 && names[1..][i] !in groups && FindGroups(groups, names[1..]).error == UnknownGroup(names[1..][i])
          && forall j | 0 <= j < i :: names[1..][j] in groups;
        assert names[i + 1] == names[1..][i];
        forall j | 0 <= j < i + 1 ensures names[j] in groups {
          assert j > 0 ==> names[j] == names[1..][j - 1];
        }
      }
    }
  }

  lemma {:induction false} MissingStep(have: set<GroupId>, groups: seq<GroupId>, g: GroupId)
    ensures Missing(have, groups + [g]) == Missing(have, groups) + if g in have then [] else [g]
  {
    if |groups| > 0 {
      var (first, rest) := (groups[0], groups[1..]);
      MissingStep(have, rest, g);
      MissingFirst(have, first, rest + [g]);
      assert groups == [first] + rest && groups + [g] == [first] + (rest + [g]);
    } else {
      MissingFirst(have, g, []);
      assert groups + [g] == [g] == [g] + [];
    }
  }

  lemma MissingFirst(have: set<GroupId>, first: GroupId, rest: seq<GroupId>)
    ensures Missing(have, [first] + rest) == (if first in have then [] else [first]) + Missing(have, rest)
  {
    assert ([first] + rest)[1..] == rest;
  }

  /** Leaving out what is there already changes nothing once repeats are dropped. */
  lemma {:induction false} MissingDrops(s: seq<GroupId>, t: seq<GroupId>)
    ensures FirstOccurrences(s + Missing(Elements(s), t)) == FirstOccurrences(s + t)
  {
    if |t| > 0 {
      var front, g := t[..|t| - 1], t[|t| - 1];
      MissingDrops(s, front);
      DropsNext(s, front, g);
      assert t == front + [g];
    }
  }

  lemma DropsNext(s: seq<GroupId>, front: seq<GroupId>, g: GroupId)
    requires FirstOccurrences(s + Missing(Elements(s), front)) == FirstOccurrences(s + front)
    ensures FirstOccurrences(s + Missing(Elements(s), front + [g])) == FirstOccurrences(s + (front + [g]))
  {
    var kept := Missing(Elements(s), front);
    MissingStep(Elements(s), front, g);
    DropsStep(s + front, s + kept, g, g in s);
    Regroup(s, front, g);
    Regroup(s, kept, g);
  }

  lemma Regroup(s: seq<GroupId>, t: seq<GroupId>, g: GroupId)
    ensures s + (t + [g]) == (s + t) + [g] && t + [] == t
  {
  }

  lemma DropsStep(all: seq<GroupId>, kept: seq<GroupId>, g: GroupId, known: bool)
    requires FirstOccurrences(kept) == FirstOccurrences(all) && (known ==> g in all)
    ensures FirstOccurrences(if known then kept else kept + [g]) == FirstOccurrences(all + [g])
  {
    FirstOccurrencesStep(all, g);
    FirstOccurrencesStep(kept, g);
    assert g in FirstOccurrences(kept) <==> g in kept;
    assert g in FirstOccurrences(all) <==> g in all;
  }

  // ----- one row -----

  /** A cell of an optional column: its text when it is not blank, else what was stored, for a new device nothing. */
  ghost predicate Takes(cell: string, was: Option<string>, now: Option<string>) {
    now == if cell != "" then Some(cell) else was
  }

  /** What is stored of a device, column by column, from the cells of its row and what was stored before. */
  ghost predicate Written(at: Lookup, cell: string -> string, was: Option<Info>, now: Info) {
    && now.hostname == cell("hostname")
    && now.port == (if cell("port") != "" then at.parsePort(cell("port")) else if was.Some? then was.value.port else None)
    && Takes(cell("description"), if was.Some? then was.value.description else None, now.description)
    && Takes(cell("make"), if was.Some? then was.value.make else None, now.make)
    && Takes(cell("model"), if was.Some? then was.value.model else None, now.model)
    && Takes(cell("role"), if was.Some? then was.value.role else None, now.role)
    && Takes(cell("platform"), if was.Some? then was.value.platform else None, now.platform)
    && Takes(cell("transport"), if was.Some? then was.value.transport else None, now.transport)
    && Takes(cell("driver_kind"), if was.Some? then was.value.driverKind else None, now.driverKind)
    && Takes(cell("worker_pool"), if was.Some? then was.value.workerPool else None, now.workerPool)
    && now.credential == (if cell("credentials") != "" then Get(at.credentials, cell("credentials"))
                          else if was.Some? then was.value.credential else None)
    && now.enabled == (if Strip(cell("enabled")) != "" then Lower(Strip(cell("enabled"))) in {"1", "true", "yes", "y", "t"}
                       else if was.Some? then was.value.enabled else true)
    && Joins(at.groups, Trimmed(Split(cell("group"), ',')), if was.Some? then was.value.groups else [], now.groups)
  }

  /** The groups it was in, then those of the names, each once. */
  ghost predicate Joins(groups: map<string, GroupId>, names: seq<string>, was: seq<GroupId>, now: seq<GroupId>) {
    exists ids :: AreGroups(groups, names, ids) && now == FirstOccurrences(was + ids)
  }

  /** A row passes its checks exactly when every cell that must be filled is, and every filled one can be used; `names`
      are the names in its group cell. */
  ghost predicate Acceptable(at: Lookup, cell: string -> string, names: seq<string>) {
    && cell("name") != "" && cell("hostname") != ""
    && (cell("port") != "" ==> at.parsePort(cell("port")).Some?)
    && names != [] && (forall n | n in names :: n in at.groups)
    && (cell("credentials") != "" ==> cell("credentials") in at.credentials)
    && (cell("transport") != "" ==> cell("transport") in at.transports)
    && (cell("driver_kind") != "" ==> cell("driver_kind") in at.driverKinds)
    && !NoBoolean(cell("enabled"))
  }

  ghost function Cells(header: seq<string>, row: seq<string>): string -> string {
    (key: string) => Cell(header, row, key)
  }

  lemma LowerBlank(s: string)
    ensures Lower(s) == "" <==> s == ""
  {
    assert |Lower(s)| == |s|;
  }

  /** The fields are the cells of the row. */
  ghost predicate Reads(f: Fields, cell: string -> string) {
    && f.name == cell("name") && f.hostname == cell("hostname") && f.port == cell("port")
    && f.description == cell("description") && f.make == cell("make") && f.model == cell("model") && f.role == cell("role")
    && f.group == cell("group") && f.platform == cell("platform") && f.transport == cell("transport")
    && f.driverKind == cell("driver_kind") && f.credentials == cell("credentials") && f.enabled == cell("enabled")
    && f.workerPool == cell("worker_pool")
  }

  lemma RowReads(header: seq<string>, row: seq<string>)
    ensures Reads(Read(header, row), Cells(header, row)) == true
  {
  }

  lemma RowAccepted(at: Lookup, header: seq<string>, row: seq<string>)
    ensures var cell := Cells(header, row);
      ReadRow(at, header, row).check.Ok? <==> Acceptable(at, cell, Trimmed(Split(cell("group"), ',')))
    ensures ReadRow(at, header, row).name == Cell(header, row, "name")
  {
    var f := Read(header, row);
    var names := GroupNames(f.group, "");
    RowReads(header, row);
    GroupNamesAre(f.group);
    GroupsFound(at.groups, names);
    BooleanRead(f.enabled);
    CheckAccepts(at, f, Cells(header, row), names);
  }

  lemma GroupsFound(groups: map<string, GroupId>, names: seq<string>)
    ensures FindGroups(groups, names).Ok? <==> forall n | n in names :: n in groups
  {
    FindGroupsIs(groups, names);
  }

  lemma BooleanRead(value: string)
    ensures ParseBool(value).Ok? <==> !NoBoolean(value)
  {
    LowerBlank(Strip(value));
  }

  lemma CheckAccepts(at: Lookup, f: Fields, cell: string -> string, names: seq<string>)
    requires Reads(f, cell) && names == GroupNames(f.group, "")
    requires FindGroups(at.groups, names).Ok? <==> forall n | n in names :: n in at.groups
    requires ParseBool(f.enabled).Ok? <==> !NoBoolean(f.enabled)
    ensures f.name != "" && Check(at, f).Ok? <==> Acceptable(at, cell, names)
  {
  }

  /** A row that is refused for a reason has that defect. */
  lemma RowRefused(at: Lookup, header: seq<string>, row: seq<string>)
    requires ReadRow(at, header, row).check.Err?
    ensures var cell := Cells(header, row);
      IsDefect(at, cell, Trimmed(Split(cell("group"), ',')), ReadRow(at, header, row).check.error) == true
  {
    RowReads(header, row);
    if Cell(header, row, "name") != "" {
      var f := Read(header, row);
      var names := GroupNames(f.group, "");
      GroupNamesAre(f.group);
      if FindGroups(at.groups, names).Err? {
        GroupsRefused(at.groups, names);
      }
      if ParseBool(f.enabled).Err? {
        BooleanRefused(f.enabled);
      }
      CheckRefuses(at, f, Cells(header, row), names);
    }
  }

  /** The cell cannot be read as yes, no or nothing. */
  ghost predicate NoBoolean(cell: string) {
    Lower(Strip(cell)) !in {"", "1", "true", "yes", "y", "t", "0", "false", "no", "n", "f"}
  }

  ghost predicate IsDefect(at: Lookup, cell: string -> string, names: seq<string>, e: Error) {
    match e
    case NameRequired => cell("name") == ""
    case HostnameRequired => cell("hostname") == ""
    case BadPort => cell("port") != "" && at.parsePort(cell("port")).None?
    case GroupRequired => names == []
    case UnknownGroup(n) => n in names && n !in at.groups
    case UnknownCredential => cell("credentials") != "" && cell("credentials") !in at.credentials
    case BadTransport => cell("transport") != "" && cell("transport") !in at.transports
    case BadDriverKind => cell("driver_kind") != "" && cell("driver_kind") !in at.driverKinds
    case BadBoolean => NoBoolean(cell("enabled"))
    case _ => false
  }

  lemma CheckRefuses(at: Lookup, f: Fields, cell: string -> string, names: seq<string>)
    requires Reads(f, cell) && Check(at, f).Err? && names == GroupNames(f.group, "")
    requires FindGroups(at.groups, names).Err? ==>
      var e := FindGroups(at.groups, names).error; e.UnknownGroup? && e.name in names && e.name !in at.groups
    requires ParseBool(f.enabled).Err? ==> ParseBool(f.enabled).error == BadBoolean && NoBoolean(f.enabled)
    ensures IsDefect(at, cell, names, Check(at, f).error) == true
  {
  }

  lemma GroupsRefused(groups: map<string, GroupId>, names: seq<string>)
    requires FindGroups(groups, names).Err?
    ensures var e := FindGroups(groups, names).error; e.UnknownGroup? && e.name in names && e.name !in groups
  {
    FindGroupsIs(groups, names);
  }

  lemma BooleanRefused(value: string)
    requires ParseBool(value).Err?
    ensures ParseBool(value).error == BadBoolean
    ensures NoBoolean(value) == true
  {
    LowerBlank(Strip(value));
  }

  /** The device a row that passed makes of the stored one. */
  lemma RowWritten(at: Lookup, header: seq<string>, row: seq<string>, was: Option<Info>)
    requires ReadRow(at, header, row).check.Ok?
    ensures Written(at, Cells(header, row), was, OneEach(Upsert(was, ReadRow(at, header, row).check.value))) == true
  {
    var p := ReadRow(at, header, row).check.value;
    RowPlanned(at, header, row);
    RowJoins(at, header, row);
    UpsertJoins(at.groups, Trimmed(Split(Cell(header, row, "group"), ',')), was, p);
    PlanWritten(at, Cells(header, row), p, was);
  }

  /** What a row that passed asks for, column by column; nothing where its cell is blank. */
  ghost predicate Plans(at: Lookup, cell: string -> string, p: Plan) {
    && p.hostname == cell("hostname")
    && p.port == (if cell("port") != "" then at.parsePort(cell("port")) else None)
    && (cell("port") != "" ==> p.port.Some?)
    && Takes(cell("description"), None, p.description) && Takes(cell("make"), None, p.make)
    && Takes(cell("model"), None, p.model) && Takes(cell("role"), None, p.role)
    && Takes(cell("platform"), None, p.platform) && Takes(cell("transport"), None, p.transport)
    && Takes(cell("driver_kind"), None, p.driverKind) && Takes(cell("worker_pool"), None, p.workerPool)
    && p.credential == (if cell("credentials") != "" then Get(at.credentials, cell("credentials")) else None)
    && (cell("credentials") != "" ==> p.credential.Some?)
    && p.enabled == (if Strip(cell("enabled")) != "" then Some(Lower(Strip(cell("enabled"))) in {"1", "true", "yes", "y", "t"})
                     else None)
  }

  lemma RowPlanned(at: Lookup, header: seq<string>, row: seq<string>)
    requires ReadRow(at, header, row).check.Ok?
    ensures Plans(at, Cells(header, row), ReadRow(at, header, row).check.value) == true
  {
    RowReads(header, row);
    CheckPlans(at, Read(header, row), Cells(header, row));
  }

  lemma CheckPlans(at: Lookup, f: Fields, cell: string -> string)
    requires Reads(f, cell) && Check(at, f).Ok?
    ensures Plans(at, cell, Check(at, f).value) == true
  {
    LowerBlank(Strip(f.enabled));
  }

  lemma PlanWritten(at: Lookup, cell: string -> string, p: Plan, was: Option<Info>)
    requires Plans(at, cell, p) == true
    requires Joins(at.groups, Trimmed(Split(cell("group"), ',')), if was.Some? then was.value.groups else [], OneEach(Upsert(was, p)).groups) == true
    ensures Written(at, cell, was, OneEach(Upsert(was, p))) == true
  {
  }

  lemma RowJoins(at: Lookup, header: seq<string>, row: seq<string>)
    requires ReadRow(at, header, row).check.Ok?
    ensures AreGroups(at.groups, Trimmed(Split(Cell(header, row, "group"), ',')), ReadRow(at, header, row).check.value.groups) == true
  {
    var cell := Cell(header, row, "group");
    GroupNamesAre(cell);
    FindGroupsIs(at.groups, GroupNames(cell, ""));
  }

  lemma UpsertJoins(groups: map<string, GroupId>, names: seq<string>, was: Option<Info>, p: Plan)
    requires AreGroups(groups, names, p.groups) == true
    ensures Joins(groups, names, if was.Some? then was.value.groups else [], OneEach(Upsert(was, p)).groups) == true
  {
    if was.Some? {
      MissingDrops(was.value.groups, p.groups);
    } else {
      assert [] + p.groups == p.groups;
    }
  }

  // ----- the whole file -----

  /**
   * After a file that was stored, each row's device holds the row's cells: the hostname, and of every other column the
   * cell if it is not blank, else what was stored before, for a new device nothing, and `enabled` true; its groups are
   * those it was in, then those of the row, each once. A device without a row is as it was.
   */
  lemma StoredCells(
    at: Lookup, header: seq<string>, table: seq<seq<string>>, stored: map<string, Info>, inserts: Inserts, i: nat)
    requires Keyed(stored) && i < |table|
    requires Import(stored, ReadRows(at, header, table), inserts).1.Stored?
    ensures var (devices, cell) := (Import(stored, ReadRows(at, header, table), inserts).0, Cells(header, table[i]));
      cell("name") in devices && Written(at, cell, Get(stored, cell("name")), devices[cell("name")])
  {
    var rows := ReadRows(at, header, table);
    ImportExact(stored, rows, inserts);
    RowForUnique(rows, rows[i]);
    RowAccepted(at, header, table[i]);
    RowWritten(at, header, table[i], Get(stored, rows[i].name));
    assert Get(Import(stored, rows, inserts).0, rows[i].name) == ExpectedStored(stored, rows, rows[i].name);
  }

  lemma UnnamedAsStored(
    at: Lookup, header: seq<string>, table: seq<seq<string>>, stored: map<string, Info>, inserts: Inserts, n: string)
    requires Keyed(stored) && forall i | 0 <= i < |table| :: Cell(header, table[i], "name") != n
    ensures Get(Import(stored, ReadRows(at, header, table), inserts).0, n) == Get(stored, n)
  {
    var rows := ReadRows(at, header, table);
    ImportExact(stored, rows, inserts);
    forall i | 0 <= i < |rows| ensures rows[i].name != n {
      RowAccepted(at, header, table[i]);
    }
    if Import(stored, rows, inserts).1.Stored? {
      UnnamedKept(stored, rows, n);
      assert Get(Import(stored, rows, inserts).0, n) == ExpectedStored(stored, rows, n);
    }
  }

  // ----- what is reported -----

  /** The result of a row: an update when its device is stored already, else a creation; the name taken by a good row
      above it, or its own defect, is its error. */
  ghost predicate ResultIs(stored: map<string, Info>, rows: seq<Row>, results: seq<RowResult>, i: nat)
    requires i < |rows| == |results|
  {
    && results[i].action == (if rows[i].name in stored then Updated else Created)
    && results[i].error == (
         if Above(rows, results, i, rows[i].name) then Some(DuplicateName)
         else match rows[i].check case Ok(_) => None case Err(e) => Some(e))
  }

  lemma {:induction false} ResultsAre(stored: map<string, Info>, rows: seq<Row>)
    ensures Reported(rows, Turns(stored, rows)) == true
    ensures forall i: nat | i < |rows| :: ResultIs(stored, rows, Turns(stored, rows).results, i)
  {
    ResultsExact(stored, rows);
    if rows != [] {
      ResultsAre(stored, rows[..|rows| - 1]);
      forall i: nat | i < |rows| ensures ResultIs(stored, rows, Turns(stored, rows).results, i) == true {
        ResultHere(stored, rows, i);
      }
    }
  }

  lemma ResultHere(stored: map<string, Info>, rows: seq<Row>, i: nat)
    requires i < |rows| == |Turns(stored, rows).results|
    requires var n := |rows| - 1;
      && Reported(rows[..n], Turns(stored, rows[..n])) == true
      && (i < n ==> ResultIs(stored, rows[..n], Turns(stored, rows[..n]).results, i) == true)
    ensures ResultIs(stored, rows, Turns(stored, rows).results, i) == true
  {
    var p := Turns(stored, rows[..|rows| - 1]);
    TurnsFine(stored, rows[..|rows| - 1]);
    if i < |rows| - 1 {
      ResultStays(stored, rows, p.results, Turns(stored, rows).results, i);
    } else {
      ResultComes(stored, rows, p);
    }
  }

  lemma ResultStays(stored: map<string, Info>, rows: seq<Row>, before: seq<RowResult>, results: seq<RowResult>, i: nat)
    requires i < |before| == |rows| - 1 && |results| == |rows| && before == results[..|before|]
    requires ResultIs(stored, rows[..|before|], before, i)
    ensures ResultIs(stored, rows, results, i) == true
  {
    assert Above(rows, results, i, rows[i].name) <==> Above(rows[..|before|], before, i, rows[i].name);
  }

  lemma ResultComes(stored: map<string, Info>, rows: seq<Row>, p: Progress)
    requires rows != [] && Reported(rows[..|rows| - 1], p) && p.session.Keys == stored.Keys
    ensures var (n, p') := (|rows| - 1, Turn(p, rows[|rows| - 1], |rows| + 1));
      |p'.results| == |rows| && ResultIs(stored, rows, p'.results, n)
  {
    var (n, p') := (|rows| - 1, Turn(p, rows[|rows| - 1], |rows| + 1));
    assert Above(rows, p'.results, n, rows[n].name) <==> Above(rows[..n], p.results, n, rows[n].name);
  }
}
