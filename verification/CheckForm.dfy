/**
 * Saving a policy's form over its checks (`_apply_policy_data` in src/kiroku/web/routes/compliance.py).
 */
module CheckForm {
  import opened Basics
  import opened Lines
  import opened Decimal

  type CheckId = nat

  /** The columns of a check that the form writes. */
  datatype Values = Values(
    name: string, field: string, operator: string, expected: Option<string>,
    mode: string, severity: string, description: Option<string>, order: int)

  /** The parallel arrays of the form; they may differ in length. */
  datatype Form = Form(
    names: seq<string>, fields: seq<string>, operators: seq<string>, expecteds: seq<string>,
    modes: seq<string>, severities: seq<string>, descriptions: seq<string>, ids: seq<string>)

  // ----- reading one row -----

  function Cell(column: seq<string>, i: nat, default: string): string {
    if i < |column| then column[i] else default
  }

  function NonEmpty(s: string): Option<string> {
    if s == "" then None else Some(s)
  }

  /** `int(s)` for a cell of digits; None for any other cell, and for 0, which Python takes for false. */
  function ParseId(cell: string): Option<CheckId> {
    if Strip(cell) == "" then None
    else match Digits(Strip(cell))
      case None => None
      case Some(n) => if n == 0 then None else Some(n)
  }

  predicate Blank(form: Form, i: nat) {
    Strip(Cell(form.names, i, "")) == ""
  }

  function RowValues(form: Form, i: nat): Values {
    Values(Strip(Cell(form.names, i, "")), Strip(Cell(form.fields, i, "")), Cell(form.operators, i, "eq"),
           NonEmpty(Cell(form.expecteds, i, "")), Cell(form.modes, i, "any"), Cell(form.severities, i, "major"),
           NonEmpty(Cell(form.descriptions, i, "")), i)
  }

  /** What a row asks for: nothing when its name is blank, a change of a known check, or a new one. */
  datatype Entry = Nothing | Change(id: CheckId) | Create

  function EntryOf(form: Form, known: set<CheckId>, i: nat): Entry {
    var id := ParseId(Cell(form.ids, i, ""));
    if Blank(form, i) then Nothing
    else if id.Some? && id.value in known then Change(id.value)
    else Create
  }

  function Entries(form: Form, known: set<CheckId>): seq<Entry> {
    seq(|form.names|, i requires 0 <= i < |form.names| => EntryOf(form, known, i))
  }

  // ----- what a list of entries does -----

  /** The last row that changes the check. */
  function Writer(entries: seq<Entry>, id: CheckId): (r: Option<nat>)
    ensures r.Some? ==> r.value < |entries| && entries[r.value] == Change(id)
    ensures forall i :: 0 <= i < |entries| && entries[i] == Change(id) ==> r.Some? && i <= r.value
  {
    if entries == [] then None
    else
      var n := |entries| - 1;
      if entries[n] == Change(id) then Some(n) else Writer(entries[..n], id)
  }

  /** Whether a row is filled in; with `created`, whether it makes a check. */
  predicate Selects(e: Entry, created: bool) {
    e.Create? || (e.Change? && !created)
  }

  /** The selected rows, in order. */
  function Rows(entries: seq<Entry>, created: bool): (r: seq<nat>)
    ensures forall k :: 0 <= k < |r| ==> r[k] < |entries| && Selects(entries[r[k]], created)
    ensures forall j, k :: 0 <= j < k < |r| ==> r[j] < r[k]
    ensures forall i :: 0 <= i < |entries| && Selects(entries[i], created) ==> i in r
  {
    if entries == [] then []
    else
      var n := |entries| - 1;
      Rows(entries[..n], created) + (if Selects(entries[n], created) then [n] else [])
  }

  function Creators(entries: seq<Entry>): seq<nat> {
    Rows(entries, true)
  }

  function Filled(entries: seq<Entry>): seq<nat> {
    Rows(entries, false)
  }

  /** For each listed check that some row changes, the row that has the last word. */
  function Writers(entries: seq<Entry>, ids: seq<CheckId>): seq<nat> {
    if ids == [] then []
    else
      var w := Writer(entries, ids[|ids| - 1]);
      Writers(entries, ids[..|ids| - 1]) + (if w.Some? then [w.value] else [])
  }

  function ValuesOf<V>(value: nat -> V, rows: seq<nat>): seq<V> {
    seq(|rows|, k requires 0 <= k < |rows| => value(rows[k]))
  }

  /** How far the loop over the rows has come: the values of the loaded checks, which of them were mentioned, and
      the values of the new ones. */
  datatype Progress<V> = Progress(values: seq<V>, kept: set<CheckId>, made: seq<V>)

  function Turn<V>(ids: seq<CheckId>, p: Progress<V>, e: Entry, v: V): Progress<V> {
    match e
    case Nothing => p
    case Create => p.(made := p.made + [v])
    case Change(id) => Progress(Rewrite(ids, p.values, id, v), p.kept + {id}, p.made)
  }

  function Rewrite<V>(ids: seq<CheckId>, values: seq<V>, id: CheckId, v: V): seq<V> {
    if ids == [] || values == [] then values
    else [if ids[0] == id then v else values[0]] + Rewrite(ids[1..], values[1..], id, v)
  }

  /** The loop over all rows, where `value` gives the values in a row. */
  function Turns<V>(value: nat -> V, entries: seq<Entry>, ids: seq<CheckId>, before: seq<V>): Progress<V> {
    if entries == [] then Progress(before, {}, [])
    else
      var n := |entries| - 1;
      Turn(ids, Turns(value, entries[..n], ids, before), entries[n], value(n))
  }

  lemma TurnsStep<V>(value: nat -> V, entries: seq<Entry>, e: Entry, ids: seq<CheckId>, before: seq<V>)
    ensures Turns(value, entries + [e], ids, before) == Turn(ids, Turns(value, entries, ids, before), e, value(|entries|))
  {
    assert (entries + [e])[..|entries|] == entries;
  }

  lemma RewriteIs<V>(ids: seq<CheckId>, values: seq<V>, id: CheckId, v: V, values': seq<V>)
    requires |ids| == |values| == |values'|
    requires forall k :: 0 <= k < |ids| ==> values'[k] == if ids[k] == id then v else values[k]
    ensures values' == Rewrite(ids, values, id, v)
  {
    RewriteAt(ids, values, id, v);
  }

  lemma TurnsOn<V>(value: nat -> V, entries: seq<Entry>, i: nat, ids: seq<CheckId>, before: seq<V>)
    requires i < |entries|
    ensures Turns(value, entries[..i + 1], ids, before)
         == Turn(ids, Turns(value, entries[..i], ids, before), entries[i], value(i))
  {
    assert entries[..i + 1] == entries[..i] + [entries[i]];
    TurnsStep(value, entries[..i], entries[i], ids, before);
  }

  lemma {:induction false} RewriteAt<V>(ids: seq<CheckId>, values: seq<V>, id: CheckId, v: V)
    requires |ids| == |values|
    ensures var r := Rewrite(ids, values, id, v);
      |r| == |ids| && forall k :: 0 <= k < |r| ==> r[k] == if ids[k] == id then v else values[k]
  {
    if ids != [] {
      RewriteAt(ids[1..], values[1..], id, v);
    }
  }

  /** The values whose keys are kept. */
  function Selected<V>(ids: seq<CheckId>, values: seq<V>, kept: set<CheckId>): seq<V>
    requires |ids| == |values|
  {
    if ids == [] then []
    else
      var n := |ids| - 1;
      Selected(ids[..n], values[..n], kept) + (if ids[n] in kept then [values[n]] else [])
  }

  lemma {:induction false} TurnsLength<V>(value: nat -> V, entries: seq<Entry>, ids: seq<CheckId>, before: seq<V>)
    requires |ids| == |before|
    ensures |Turns(value, entries, ids, before).values| == |ids|
  {
    if entries != [] {
      var n := |entries| - 1;
      TurnsLength(value, entries[..n], ids, before);
      if entries[n].Change? {
        RewriteAt(ids, Turns(value, entries[..n], ids, before).values, entries[n].id, value(n));
      }
    }
  }

  /** The values of all checks after the rows. */
  function Outcome<V>(value: nat -> V, entries: seq<Entry>, ids: seq<CheckId>, before: seq<V>): seq<V>
    requires |ids| == |before|
  {
    var end := Turns(value, entries, ids, before);
    TurnsLength(value, entries, ids, before);
    Selected(ids, end.values, end.kept) + end.made
  }

  function Reader(form: Form): nat -> Values {
    (i: nat) => RowValues(form, i)
  }

  /** The values of the checks after saving the form over checks with these keys and values. */
  function Saved(form: Form, ids: seq<CheckId>, before: seq<Values>): seq<Values>
    requires |ids| == |before|
  {
    Outcome(Reader(form), Entries(form, Elements(ids)), ids, before)
  }

  /** What the user submitted: the rows that are not blank, in order. */
  function Submitted(form: Form): seq<Values> {
    ValuesOf(Reader(form), Filled(Entries(form, {})))
  }

  // ----- the columns -----

  /** Which column of the form each stored field comes from, and what stands for the entries of a short one. */
  ghost predicate ShowsRow(form: Form, i: nat, v: Values) {
    && i < |form.names| && v.name == Strip(form.names[i]) != ""
    && v.field == (if i < |form.fields| then Strip(form.fields[i]) else "")
    && v.operator == (if i < |form.operators| then form.operators[i] else "eq")
    && v.expected == (if i < |form.expecteds| && form.expecteds[i] != "" then Some(form.expecteds[i]) else None)
    && v.mode == (if i < |form.modes| then form.modes[i] else "any")
    && v.severity == (if i < |form.severities| then form.severities[i] else "major")
    && v.description == (if i < |form.descriptions| && form.descriptions[i] != "" then Some(form.descriptions[i]) else None)
    && v.order == i
  }

  /** A filled row changes the check whose key its id cell spells, if the policy has it; any other filled row makes a
      check. */
  lemma EntryIs(form: Form, known: set<CheckId>, i: nat, id: CheckId)
    requires i < |form.names|
    ensures var (e, cell) := (EntryOf(form, known, i), if i < |form.ids| then Strip(form.ids[i]) else "");
      && (e.Nothing? <==> Strip(form.names[i]) == "")
      && (e == Change(id) <==>
           Strip(form.names[i]) != "" && cell != "" && Digits(cell) == Some(id) && id != 0 && id in known)
  {
  }

  lemma RowShown(form: Form, i: nat)
    requires i < |form.names| && Strip(form.names[i]) != ""
    ensures ShowsRow(form, i, RowValues(form, i))
  {
  }

  /** Each check that is stored shows the filled row it was last written from; so does each row that counts as submitted. */
  lemma StoredShowsRows(form: Form, ids: seq<CheckId>, before: seq<Values>)
    requires |ids| == |before|
    ensures forall v | v in Saved(form, ids, before) || v in Submitted(form) :: v.order >= 0 && ShowsRow(form, v.order, v)
  {
    var entries := Entries(form, Elements(ids));
    OutcomeIs(Reader(form), entries, ids, before);
    forall v | v in Saved(form, ids, before) ensures v.order >= 0 && ShowsRow(form, v.order, v) {
      var k :| 0 <= k < |Saved(form, ids, before)| && Saved(form, ids, before)[k] == v;
      var i := (Writers(entries, ids) + Creators(entries))[k];
      WrittenRow(form, Elements(ids), ids, i);
      RowShown(form, i);
    }
    forall v | v in Submitted(form) ensures v.order >= 0 && ShowsRow(form, v.order, v) {
      var rows := Filled(Entries(form, {}));
      var k :| 0 <= k < |rows| && ValuesOf(Reader(form), rows)[k] == v;
      RowShown(form, rows[k]);
    }
  }

  lemma WrittenRow(form: Form, known: set<CheckId>, ids: seq<CheckId>, i: nat)
    requires i in Writers(Entries(form, known), ids) + Creators(Entries(form, known))
    ensures i < |form.names| && Strip(form.names[i]) != ""
  {
    var entries := Entries(form, known);
    WritersExact(entries, ids);
    assert i < |entries| && entries[i] != Nothing;
  }

  // ----- the round trip -----

  /** Two rows are about one check. */
  ghost predicate Clash(entries: seq<Entry>) {
    exists i, j :: 0 <= i < j < |entries| && entries[i].Change? && entries[i] == entries[j]
  }

  /** One more row. */
  lemma EntriesStep(entries: seq<Entry>, e: Entry)
    ensures Creators(entries + [e]) == Creators(entries) + (if e.Create? then [|entries|] else [])
    ensures forall id :: Writer(entries + [e], id) == if e == Change(id) then Some(|entries|) else Writer(entries, id)
  {
    assert (entries + [e])[..|entries|] == entries;
  }

  /** What the entries have done to each check: the last row about it has the last word. */
  ghost predicate Done<V(!new)>(value: nat -> V, entries: seq<Entry>, ids: seq<CheckId>, before: seq<V>, p: Progress<V>) {
    && |p.values| == |ids| == |before|
    && (forall k :: 0 <= k < |ids| ==> p.values[k] == WrittenValue(value, entries, ids[k], before[k]))
    && (forall id :: id in p.kept <==> Writer(entries, id).Some?)
    && p.made == ValuesOf(value, Creators(entries))
  }

  function WrittenValue<V>(value: nat -> V, entries: seq<Entry>, id: CheckId, before: V): V {
    match Writer(entries, id)
    case Some(i) => value(i)
    case None => before
  }

  lemma ChangeStep<V(!new)>(
    value: nat -> V, entries: seq<Entry>, e: Entry, ids: seq<CheckId>, before: seq<V>, values: seq<V>)
    requires |ids| == |before| == |values|
    requires forall k :: 0 <= k < |ids| ==> values[k] == WrittenValue(value, entries, ids[k], before[k])
    ensures var values' := if e.Change? then Rewrite(ids, values, e.id, value(|entries|)) else values;
      && |values'| == |ids|
      && forall k :: 0 <= k < |ids| ==> values'[k] == WrittenValue(value, entries + [e], ids[k], before[k])
  {
    EntriesStep(entries, e);
    if e.Change? {
      RewriteAt(ids, values, e.id, value(|entries|));
    }
  }

  lemma DoneStep<V(!new)>(
    value: nat -> V, entries: seq<Entry>, e: Entry, ids: seq<CheckId>, before: seq<V>, p: Progress<V>)
    requires Done(value, entries, ids, before, p)
    ensures Done(value, entries + [e], ids, before, Turn(ids, p, e, value(|entries|))) == true
  {
    ChangeStep(value, entries, e, ids, before, p.values);
    EntriesStep(entries, e);
    if e.Create? {
      ValuesAppend(value, Creators(entries), [|entries|]);
    }
  }

  /** The loop does what the last words say. */
  lemma {:induction false} TurnsDone<V(!new)>(value: nat -> V, entries: seq<Entry>, ids: seq<CheckId>, before: seq<V>)
    requires |ids| == |before|
    ensures Done(value, entries, ids, before, Turns(value, entries, ids, before)) == true
  {
    if entries != [] {
      var n := |entries| - 1;
      TurnsDone(value, entries[..n], ids, before);
      DoneStep(value, entries[..n], entries[n], ids, before, Turns(value, entries[..n], ids, before));
      assert entries == entries[..n] + [entries[n]];
    }
  }

  lemma {:induction false} SelectedWritten<V(!new)>(
    value: nat -> V, entries: seq<Entry>, ids: seq<CheckId>, before: seq<V>, values: seq<V>, kept: set<CheckId>)
    requires |ids| == |before| == |values|
    requires forall k :: 0 <= k < |ids| ==> values[k] == WrittenValue(value, entries, ids[k], before[k])
    requires forall id :: id in kept <==> Writer(entries, id).Some?
    ensures Selected(ids, values, kept) == ValuesOf(value, Writers(entries, ids))
  {
    if ids != [] {
      var n := |ids| - 1;
      SelectedWritten(value, entries, ids[..n], before[..n], values[..n], kept);
      var w := Writer(entries, ids[n]);
      if w.Some? {
        ValuesAppend(value, Writers(entries, ids[..n]), [w.value]);
      }
    }
  }

  lemma ValuesAppend<V>(value: nat -> V, rows: seq<nat>, more: seq<nat>)
    ensures ValuesOf(value, rows + more) == ValuesOf(value, rows) + ValuesOf(value, more)
  {
  }

  /** A check is deleted exactly when no filled row names it. */
  lemma KeptIffMentioned(form: Form, ids: seq<CheckId>, before: seq<Values>, id: CheckId)
    requires |ids| == |before|
    ensures var entries := Entries(form, Elements(ids));
      id in Turns(Reader(form), entries, ids, before).kept <==> exists i :: 0 <= i < |entries| && entries[i] == Change(id)
  {
    TurnsDone(Reader(form), Entries(form, Elements(ids)), ids, before);
  }

  /** What is stored comes from the form alone: the last row about each mentioned check, then the rows that made one. */
  lemma OutcomeIs<V(!new)>(value: nat -> V, entries: seq<Entry>, ids: seq<CheckId>, before: seq<V>)
    requires |ids| == |before|
    ensures Outcome(value, entries, ids, before) == ValuesOf(value, Writers(entries, ids) + Creators(entries))
  {
    var end := Turns(value, entries, ids, before);
    TurnsDone(value, entries, ids, before);
    SelectedWritten(value, entries, ids, before, end.values, end.kept);
    ValuesAppend(value, Writers(entries, ids), Creators(entries));
  }

  lemma {:induction false} WritersExact(entries: seq<Entry>, ids: seq<CheckId>)
    ensures forall i :: i in Writers(entries, ids) <==> exists id :: id in ids && Writer(entries, id) == Some(i)
  {
    if ids != [] {
      var front, last := ids[..|ids| - 1], ids[|ids| - 1];
      WritersExact(entries, front);
      forall i ensures i in Writers(entries, ids) <==> exists id :: id in ids && Writer(entries, id) == Some(i) {
        assert forall id :: id in ids <==> id in front || id == last;
        assert i in Writers(entries, ids) <==> i in Writers(entries, front) || Writer(entries, last) == Some(i);
      }
    }
  }

  /** Distinct checks have distinct last rows. */
  lemma {:induction false} WritersDistinct(entries: seq<Entry>, ids: seq<CheckId>)
    requires Distinct(ids)
    ensures Distinct(Writers(entries, ids))
  {
    if ids != [] {
      var front := ids[..|ids| - 1];
      WritersDistinct(entries, front);
      WritersExact(entries, front);
    }
  }

  lemma SavedDistinctRows(entries: seq<Entry>, ids: seq<CheckId>)
    requires Distinct(ids)
    ensures Distinct(Writers(entries, ids) + Creators(entries))
    ensures forall i | i in Writers(entries, ids) + Creators(entries) :: i < |entries|
  {
    var writers, creators := Writers(entries, ids), Creators(entries);
    var rows := writers + creators;
    WritersExact(entries, ids);
    WritersDistinct(entries, ids);
    forall j, k | 0 <= j < k < |rows| ensures rows[j] != rows[k] {
      assert k < |writers| ==> rows[j] == writers[j] && rows[k] == writers[k];
      assert j >= |writers| ==> rows[j] == creators[j - |writers|] && rows[k] == creators[k - |writers|];
      if j < |writers| <= k {
        assert writers[j] in writers && entries[writers[j]].Change? && entries[creators[k - |writers|]].Create?;
      }
    }
  }

  /** Every check is written by one row, and all rows that are not blank write one, unless two rows are about one check. */
  lemma SavedRows(entries: seq<Entry>, ids: seq<CheckId>)
    requires Distinct(ids) && forall e | e in entries && e.Change? :: e.id in ids
    ensures var rows := Writers(entries, ids) + Creators(entries);
      && Distinct(rows)
      && (Elements(rows) == Elements(Filled(entries)) <==> !Clash(entries))
  {
    var rows, filled := Writers(entries, ids) + Creators(entries), Filled(entries);
    SavedDistinctRows(entries, ids);
    forall i: nat | i < |entries| ensures i in rows <==> HasLastWord(entries, i) {
      SavedRow(entries, ids, i);
    }
    forall i | i in rows ensures i in filled {}
    if Clash(entries) {
      var i, j :| 0 <= i < j < |entries| && entries[i].Change? && entries[i] == entries[j];
      assert !HasLastWord(entries, i) && i in filled;
      assert i in Elements(filled) && i !in Elements(rows);
    } else {
      forall i | i in filled ensures i in rows {
        assert HasLastWord(entries, i);
      }
    }
  }

  /** The row makes a check, or is the last about its check. */
  ghost predicate HasLastWord(entries: seq<Entry>, i: nat)
    requires i < |entries|
  {
    Selects(entries[i], false) && forall j :: i < j < |entries| && entries[i].Change? ==> entries[j] != entries[i]
  }

  lemma SavedRow(entries: seq<Entry>, ids: seq<CheckId>, i: nat)
    requires i < |entries| && forall e | e in entries && e.Change? :: e.id in ids
    ensures i in Writers(entries, ids) + Creators(entries) <==> HasLastWord(entries, i)
  {
    WritersExact(entries, ids);
    assert entries[i] in entries;
    if entries[i].Change? {
      assert i !in Creators(entries);
      assert Writer(entries, entries[i].id) == Some(i) <==> HasLastWord(entries, i);
    }
  }

  lemma AscendingLast(a: seq<int>)
    requires a != [] && forall j, k :: 0 <= j < k < |a| ==> a[j] < a[k]
    ensures var x := a[|a| - 1];
      x in a && forall z :: (z in a ==> z <= x) && (z in a[..|a| - 1] <==> z in a && z != x)
  {
    assert a == a[..|a| - 1] + [a[|a| - 1]];
  }

  /** Two ascending lists of the same numbers are one list. */
  lemma {:induction false} AscendingUnique(a: seq<int>, b: seq<int>)
    requires forall j, k :: 0 <= j < k < |a| ==> a[j] < a[k]
    requires forall j, k :: 0 <= j < k < |b| ==> b[j] < b[k]
    requires forall x :: x in a <==> x in b
    ensures a == b
  {
    if a != [] {
      AscendingLast(a);
    }
    if b != [] {
      AscendingLast(b);
    }
    if a != [] && b != [] {
      var x, y := a[|a| - 1], b[|b| - 1];
      var a', b' := a[..|a| - 1], b[..|b| - 1];
      assert x == y;
      forall z ensures z in a' <==> z in b' {
        assert z in a' <==> z in a && z != x;
        assert z in b' <==> z in b && z != y;
      }
      AscendingUnique(a', b');
      assert a == a' + [x] && b == b' + [y];
    }
  }

  /** The checks as they are loaded: in `sort_order`. */
  ghost predicate Listing(loaded: seq<Values>, saved: seq<Values>) {
    && multiset(loaded) == multiset(saved)
    && forall j, k :: 0 <= j < k < |loaded| ==> loaded[j].order <= loaded[k].order
  }

  /**
   * The form round-trips: loading the saved checks by `sort_order` gives exactly the rows that are not blank, in
   * their order, exactly when no two of them are about the same check.
   */
  lemma FormRoundTrip(form: Form, ids: seq<CheckId>, before: seq<Values>, loaded: seq<Values>)
    requires Distinct(ids) && |ids| == |before| && Listing(loaded, Saved(form, ids, before))
    ensures loaded == Submitted(form) <==> !Clash(Entries(form, Elements(ids)))
  {
    var entries := Entries(form, Elements(ids));
    forall e | e in entries && e.Change? ensures e.id in ids {}
    var rows, filled := Writers(entries, ids) + Creators(entries), Filled(entries);
    OutcomeIs(Reader(form), entries, ids, before);
    SavedRows(entries, ids);
    FilledAlike(form, Elements(ids));
    LoadedRows(Reader(form), rows, filled, loaded);
  }

  lemma FilledAlike(form: Form, known: set<CheckId>)
    ensures Filled(Entries(form, known)) == Filled(Entries(form, {}))
  {
    var a, b := Filled(Entries(form, known)), Filled(Entries(form, {}));
    var x, y: seq<int> := a, b;
    AscendingUnique(x, y);
  }

  /** The rows that loaded checks come from. */
  function Orders(loaded: seq<Values>): seq<int> {
    seq(|loaded|, k requires 0 <= k < |loaded| => loaded[k].order)
  }

  lemma SavedDistinct(value: nat -> Values, rows: seq<nat>)
    requires forall i: nat :: value(i).order == i
    requires Distinct(rows)
    ensures Distinct(ValuesOf(value, rows))
  {
    var saved := ValuesOf(value, rows);
    forall i, j | 0 <= i < j < |saved| ensures saved[i] != saved[j] {
      assert saved[i].order == rows[i] && saved[j].order == rows[j];
    }
  }

  lemma OrdersExact(value: nat -> Values, rows: seq<nat>, loaded: seq<Values>)
    requires forall i: nat :: value(i).order == i
    requires multiset(loaded) == multiset(ValuesOf(value, rows))
    ensures forall k :: 0 <= k < |loaded| ==> 0 <= loaded[k].order && loaded[k] == value(loaded[k].order)
    ensures forall i :: i in Orders(loaded) <==> i in rows
  {
    var saved, orders := ValuesOf(value, rows), Orders(loaded);
    forall k | 0 <= k < |loaded|
      ensures orders[k] in rows && 0 <= loaded[k].order && loaded[k] == value(loaded[k].order)
    {
      assert loaded[k] in multiset(saved);
      var i :| 0 <= i < |saved| && saved[i] == loaded[k];
      assert saved[i] == value(rows[i]);
    }
    forall i | i in rows ensures i in orders {
      var k :| 0 <= k < |rows| && rows[k] == i;
      assert saved[k] in multiset(loaded);
      var l :| 0 <= l < |loaded| && loaded[l] == saved[k];
      assert orders[l] == i;
    }
  }

  lemma OrdersAscend(value: nat -> Values, rows: seq<nat>, loaded: seq<Values>)
    requires forall i: nat :: value(i).order == i
    requires Distinct(rows) && Listing(loaded, ValuesOf(value, rows))
    ensures var orders := Orders(loaded); forall j, k :: 0 <= j < k < |orders| ==> orders[j] < orders[k]
  {
    SavedDistinct(value, rows);
    DistinctMultiset(ValuesOf(value, rows));
    DistinctMultiset(loaded);
    OrdersExact(value, rows, loaded);
    forall j, k | 0 <= j < k < |loaded| ensures loaded[j].order < loaded[k].order {
      assert loaded[j] != loaded[k];
    }
  }

  lemma LoadedRows(value: nat -> Values, rows: seq<nat>, filled: seq<nat>, loaded: seq<Values>)
    requires forall i: nat :: value(i).order == i
    requires Distinct(rows) && Listing(loaded, ValuesOf(value, rows))
    requires forall j, k :: 0 <= j < k < |filled| ==> filled[j] < filled[k]
    ensures loaded == ValuesOf(value, filled) <==> Elements(rows) == Elements(filled)
  {
    var orders := Orders(loaded);
    OrdersExact(value, rows, loaded);
    OrdersAscend(value, rows, loaded);
    if Elements(rows) == Elements(filled) {
      forall i ensures i in orders <==> i in filled {
        assert i in rows <==> i in Elements(rows);
        assert i in filled <==> i in Elements(filled);
      }
      AscendingUnique(orders, filled);
    }
    if loaded == ValuesOf(value, filled) {
      assert orders == filled;
      forall i ensures i in Elements(rows) <==> i in Elements(filled) {
        assert i in rows <==> i in orders;
      }
    }
  }

  /** The key the form page shows is the key the handler reads. */
  lemma ShownIdRead(id: CheckId)
    ensures ParseId(Show(id)) == if id == 0 then None else Some(id)
  {
    DigitsOfShow(id);
    var s := Show(id);
    StripSolid(s);
  }

  lemma StripSolid(s: string)
    requires s != "" && IsDigit(s[0]) && IsDigit(s[|s| - 1])
    ensures Strip(s) == s
  {
  }

  // ----- the objects -----

  class Check {
    /** None until the database gives the row a key. */
    const id: Option<CheckId>
    var values: Values

    constructor (id: Option<CheckId>, values: Values)
      ensures this.id == id && this.values == values
    {
      this.id, this.values := id, values;
    }
  }

  function Without(checks: seq<Check>, c: Check): seq<Check> {
    if checks == [] then [] else if checks[0] == c then checks[1..] else [checks[0]] + Without(checks[1..], c)
  }

  lemma {:induction false} WithoutHere(before: seq<Check>, c: Check, after: seq<Check>)
    requires c !in before
    ensures Without(before + [c] + after, c) == before + after
  {
    var all := before + [c] + after;
    if before == [] {
      assert all[1..] == after;
    } else {
      assert all[1..] == before[1..] + [c] + after;
      WithoutHere(before[1..], c, after);
    }
  }

  /** The listed checks whose keys are kept. */
  function Kept(checks: seq<Check>, kept: set<CheckId>): (r: seq<Check>)
    requires forall c | c in checks :: c.id.Some?
    ensures forall c | c in r :: c in checks && c.id.value in kept
    ensures forall c | c in checks && c.id.value in kept :: c in r
  {
    if checks == [] then []
    else
      var front, last := checks[..|checks| - 1], checks[|checks| - 1];
      assert checks == front + [last];
      Kept(front, kept) + (if last.id.value in kept then [last] else [])
  }

  /** As loaded: every check has its key, and no two share one. */
  ghost predicate Keyed(checks: seq<Check>) {
    && (forall k :: 0 <= k < |checks| ==> checks[k].id.Some?)
    && (forall j, k :: 0 <= j < k < |checks| ==> checks[j].id != checks[k].id)
  }

  function Ids(checks: seq<Check>): (r: seq<CheckId>)
    requires forall k :: 0 <= k < |checks| ==> checks[k].id.Some?
    ensures |r| == |checks| && forall k :: 0 <= k < |r| ==> r[k] == checks[k].id.value
  {
    if checks == [] then [] else [checks[0].id.value] + Ids(checks[1..])
  }

  function Snapshot(checks: seq<Check>): (r: seq<Values>)
    reads checks
    ensures |r| == |checks| && forall k :: 0 <= k < |r| ==> r[k] == checks[k].values
  {
    seq(|checks|, k reads checks requires 0 <= k < |checks| => checks[k].values)
  }

  /** `{c.id: c for c in checks}`. */
  function ById(checks: seq<Check>): (r: map<CheckId, Check>)
    requires forall c | c in checks :: c.id.Some?
    ensures forall c | c in checks :: c.id.value in r
    ensures forall id | id in r :: r[id] in checks && r[id].id == Some(id)
  {
    if checks == [] then map[]
    else
      var front, last := checks[..|checks| - 1], checks[|checks| - 1];
      assert checks == front + [last];
      ById(front)[last.id.value := last]
  }

  ghost predicate Known(existing: map<CheckId, Check>, checks: seq<Check>) {
    forall id | id in existing :: existing[id] in checks && existing[id].id == Some(id)
  }

  lemma ByIdKeys(checks: seq<Check>)
    requires Keyed(checks)
    ensures ById(checks).Keys == Elements(Ids(checks))
  {
    var ids := Ids(checks);
    forall id ensures id in ById(checks) <==> id in ids {
      if id in ids {
        var k :| 0 <= k < |ids| && ids[k] == id;
        assert checks[k] in checks;
      }
      if id in ById(checks) {
        var k :| 0 <= k < |checks| && checks[k] == ById(checks)[id];
        assert ids[k] == id;
      }
    }
  }

  lemma SnapshotAppend(checks: seq<Check>, more: seq<Check>)
    ensures Snapshot(checks + more) == Snapshot(checks) + Snapshot(more)
  {
  }

  lemma {:induction false} SnapshotKept(was: seq<Check>, ids: seq<CheckId>, values: seq<Values>, kept: set<CheckId>)
    requires |ids| == |values| == |was|
    requires forall c | c in was :: c.id.Some?
    requires forall k :: 0 <= k < |was| ==> was[k].id == Some(ids[k]) && was[k].values == values[k]
    ensures Snapshot(Kept(was, kept)) == Selected(ids, values, kept)
  {
    if was != [] {
      var n := |was| - 1;
      SnapshotKept(was[..n], ids[..n], values[..n], kept);
      if ids[n] in kept {
        SnapshotAppend(Kept(was[..n], kept), [was[n]]);
        assert Snapshot([was[n]]) == [values[n]];
      }
    }
  }

  lemma StoredIsSaved(form: Form, was: seq<Check>, created: seq<Check>, before: seq<Values>, end: Progress<Values>)
    requires Keyed(was) && |before| == |was|
    requires end == Turns(Reader(form), Entries(form, Elements(Ids(was))), Ids(was), before)
    requires Snapshot(was) == end.values && Snapshot(created) == end.made
    ensures Snapshot(Kept(was, end.kept) + created) == Saved(form, Ids(was), before)
  {
    SnapshotKept(was, Ids(was), end.values, end.kept);
    SnapshotAppend(Kept(was, end.kept), created);
  }

  class Policy {
    var checks: seq<Check>

    constructor ()
      ensures checks == []
    {
      checks := [];
    }

    /** Every known check keeps its object; those no row mentions are deleted; the other rows are new objects. */
    method ApplyForm(form: Form) returns (ghost created: seq<Check>)
      requires Keyed(checks)
      modifies this, checks
      ensures var ids := Ids(old(checks));
        var end := Turns(Reader(form), Entries(form, Elements(ids)), ids, old(Snapshot(checks)));
        && checks == Kept(old(checks), end.kept) + created
        && Snapshot(old(checks)) == end.values && Snapshot(created) == end.made
      ensures Snapshot(checks) == Saved(form, Ids(old(checks)), old(Snapshot(checks)))
      ensures Distinct(created) && forall c | c in created :: fresh(c) && c.id == None
    {
      var was := checks;
      ghost var before := Snapshot(was);
      var keptIds;
      ghost var end;
      ByIdKeys(was);
      keptIds, created, end := ApplyRows(form, ById(was), Reader(form), Entries(form, Elements(Ids(was))));
      Remove(was, created, keptIds);
      StoredIsSaved(form, was, created, before, end);
    }

    /** The loop over the rows. */
    method ApplyRows(form: Form, existing: map<CheckId, Check>, ghost value: nat -> Values, ghost entries: seq<Entry>)
      returns (keptIds: set<CheckId>, ghost created: seq<Check>, ghost end: Progress<Values>)
      requires Keyed(checks) && Known(existing, checks) && value == Reader(form) && entries == Entries(form, existing.Keys)
      modifies this`checks, checks
      ensures checks == old(checks) + created && end == Turns(value, entries, Ids(old(checks)), old(Snapshot(checks)))
      ensures Snapshot(old(checks)) == end.values && keptIds == end.kept && Snapshot(created) == end.made
      ensures Distinct(created) && forall c | c in created :: fresh(c) && c.id == None
    {
      ghost var was, ids, before := checks, Ids(checks), Snapshot(checks);
      keptIds, created, end := {}, [], Progress(before, {}, []);
      for i := 0 to |form.names|
        invariant checks == was + created && Distinct(created)
        invariant forall c | c in created :: fresh(c) && c.id == None
        invariant end == Progress(Snapshot(was), keptIds, Snapshot(created))
        invariant end == Turns(value, entries[..i], ids, before)
      {
        ghost var e := entries[i];
        TurnsOn(value, entries, i, ids, before);
        end := Turn(ids, end, e, value(i));
        keptIds, created := ApplyRow(form, i, existing, keptIds, was, created, e, value(i));
      }
      assert entries[..|form.names|] == entries;
    }

    /** One turn of the loop over the rows. */
    method ApplyRow(
      form: Form, i: nat, existing: map<CheckId, Check>, keptIds: set<CheckId>,
      ghost was: seq<Check>, ghost created: seq<Check>, ghost e: Entry, ghost v: Values)
      returns (keptIds': set<CheckId>, ghost created': seq<Check>)
      requires Keyed(was) && i < |form.names| && checks == was + created && Known(existing, was)
      requires Distinct(created) && forall c | c in created :: c.id == None
      requires e == EntryOf(form, existing.Keys, i) && v == RowValues(form, i)
      modifies this`checks, was
      ensures checks == was + created' && Distinct(created')
      ensures forall c | c in created' :: c in created || (fresh(c) && c.id == None)
      ensures Progress(Snapshot(was), keptIds', Snapshot(created'))
           == Turn(Ids(was), Progress(old(Snapshot(was)), keptIds, old(Snapshot(created))), e, v)
    {
      keptIds', created' := keptIds, created;
      if Strip(form.names[i]) == "" {
        return;
      }
      var id := ParseId(Cell(form.ids, i, ""));
      if id.Some? && id.value in existing {
        SetValues(existing[id.value], RowValues(form, i), was, created);
        keptIds' := keptIds + {id.value};
      } else {
        created' := AddCheck(RowValues(form, i), was, created);
      }
    }

    method AddCheck(values: Values, ghost was: seq<Check>, ghost created: seq<Check>)
      returns (ghost created': seq<Check>)
      requires checks == was + created && Distinct(created)
      modifies this`checks
      ensures checks == was + created' && Distinct(created') && Snapshot(was) == old(Snapshot(was))
      ensures forall c | c in created' :: c in created || (fresh(c) && c.id == None)
      ensures Snapshot(created') == old(Snapshot(created)) + [values]
    {
      var check := new Check(None, values);
      created' := created + [check];
      checks := checks + [check];
    }

    method SetValues(check: Check, values: Values, ghost was: seq<Check>, ghost created: seq<Check>)
      requires Keyed(was) && check in was && forall c | c in created :: c.id == None
      modifies check
      ensures Snapshot(was) == Rewrite(Ids(was), old(Snapshot(was)), check.id.value, values)
      ensures Snapshot(created) == old(Snapshot(created))
    {
      ghost var before := Snapshot(was);
      check.values := values;
      RewriteIs(Ids(was), before, check.id.value, values, Snapshot(was));
    }

    /** The loop that drops the checks no row mentions. */
    method Remove(was: seq<Check>, ghost created: seq<Check>, keptIds: set<CheckId>)
      requires Keyed(was) && checks == was + created
      modifies this`checks
      ensures checks == Kept(was, keptIds) + created
    {
      for k := 0 to |was|
        invariant checks == Kept(was[..k], keptIds) + was[k..] + created
      {
        RemoveStep(was, k, keptIds, created);
        if was[k].id.value !in keptIds {
          checks := Without(checks, was[k]);
        }
      }
      assert was[..|was|] == was;
    }
  }

  lemma RemoveStep(was: seq<Check>, k: nat, kept: set<CheckId>, created: seq<Check>)
    requires Keyed(was) && k < |was|
    ensures var now, next := Kept(was[..k], kept) + was[k..] + created, Kept(was[..k + 1], kept) + was[k + 1..] + created;
      next == if was[k].id.value in kept then now else Without(now, was[k])
  {
    var c, done, rest := was[k], Kept(was[..k], kept), was[k + 1..] + created;
    assert was[..k + 1][..k] == was[..k];
    assert c !in done;
    Regroup(done, c, was[k..], was[k + 1..], created);
    WithoutHere(done, c, rest);
  }

  lemma Regroup<T>(done: seq<T>, c: T, tail: seq<T>, rest: seq<T>, more: seq<T>)
    requires tail == [c] + rest
    ensures done + tail + more == done + [c] + (rest + more) == done + [c] + rest + more
    ensures done + rest + more == done + (rest + more)
  {
  }
}
