/**
 * The structured diff of two versions (`diff_commits` in src/kiroku/recorder/git_store.py): an automaton
 * that reads unified-diff lines and numbers them.
 */
module DiffRows {
  import opened Basics
  import opened Decimal

  // ----- what difflib emits -----

  datatype Op = Keep(line: string) | Remove(line: string) | Insert(line: string)

  /** A hunk: where it starts in either version, counting from 0, and its lines. */
  datatype Hunk = Hunk(oldStart: nat, newStart: nat, ops: seq<Op>)

  function OldSide(ops: seq<Op>): seq<string> {
    if ops == [] then [] else (if ops[0].Insert? then [] else [ops[0].line]) + OldSide(ops[1..])
  }

  function NewSide(ops: seq<Op>): seq<string> {
    if ops == [] then [] else (if ops[0].Remove? then [] else [ops[0].line]) + NewSide(ops[1..])
  }

  /** Between (i, j) and (o, n) the two versions agree. */
  ghost predicate Gap(a: seq<string>, b: seq<string>, i: nat, j: nat, o: nat, n: nat) {
    i <= o <= |a| && j <= n <= |b| && a[i..o] == b[j..n]
  }

  /** Where hunk m - 1 ends in either version; for m = 0, the beginning. */
  function From(hunks: seq<Hunk>, m: nat): (nat, nat)
    requires m <= |hunks|
  {
    if m == 0 then (0, 0)
    else
      var h := hunks[m - 1];
      (h.oldStart + |OldSide(h.ops)|, h.newStart + |NewSide(h.ops)|)
  }

  /** Where hunk m starts in either version; after the last hunk, the ends. */
  function To(hunks: seq<Hunk>, m: nat, oldLines: nat, newLines: nat): (nat, nat)
    requires m <= |hunks|
  {
    if m == |hunks| then (oldLines, newLines) else (hunks[m].oldStart, hunks[m].newStart)
  }

  /** A hunk holds something, and its two sides are lines of the two versions. */
  ghost predicate Matches(a: seq<string>, b: seq<string>, h: Hunk) {
    var (o, n) := (h.oldStart + |OldSide(h.ops)|, h.newStart + |NewSide(h.ops)|);
    h.ops != [] && o <= |a| && n <= |b| && a[h.oldStart..o] == OldSide(h.ops) && b[h.newStart..n] == NewSide(h.ops)
  }

  ghost predicate AgreeBefore(a: seq<string>, b: seq<string>, hunks: seq<Hunk>, m: nat)
    requires m <= |hunks|
  {
    var (from, to) := (From(hunks, m), To(hunks, m, |a|, |b|));
    Gap(a, b, from.0, from.1, to.0, to.1)
  }

  /** The hunks lead from the old version to the new: each matches both, and between them the versions agree. */
  ghost predicate Leads(a: seq<string>, b: seq<string>, hunks: seq<Hunk>) {
    && (forall h | h in hunks :: Matches(a, b, h))
    && (forall m: nat | m <= |hunks| :: AgreeBefore(a, b, hunks, m))
  }

  /** One side of a hunk header; an empty range names the line before it. */
  function Range(start: nat, length: nat): string {
    if length == 1 then Show(start + 1)
    else Show(if length == 0 then start else start + 1) + "," + Show(length)
  }

  function HeaderLine(h: Hunk): string {
    "@@ -" + Range(h.oldStart, |OldSide(h.ops)|) + " +" + Range(h.newStart, |NewSide(h.ops)|) + " @@"
  }

  function OpLine(op: Op): string {
    match op
    case Keep(line) => " " + line
    case Remove(line) => "-" + line
    case Insert(line) => "+" + line
  }

  function OpLines(ops: seq<Op>): seq<string> {
    if ops == [] then [] else [OpLine(ops[0])] + OpLines(ops[1..])
  }

  function HunkLines(hunks: seq<Hunk>): seq<string> {
    if hunks == [] then [] else [HeaderLine(hunks[0])] + OpLines(hunks[0].ops) + HunkLines(hunks[1..])
  }

  /** Nothing for equal versions; else two file lines and the hunks. */
  function UnifiedDiff(hunks: seq<Hunk>, from: string, to: string): seq<string> {
    if hunks == [] then [] else ["--- " + from, "+++ " + to] + HunkLines(hunks)
  }

  // ----- the automaton -----

  datatype Row =
    | Header(text: string)
    | Removed(oldNo: int, text: string)
    | Added(newNo: int, text: string)
    | Context(oldNo: int, newNo: int, text: string)

  datatype Numbers = Numbers(oldNo: int, newNo: int)

  /** `s.rstrip("\n")`. */
  function StripNewlines(s: string): string {
    if s != "" && s[|s| - 1] == '\n' then StripNewlines(s[..|s| - 1]) else s
  }

  function Abs(n: int): nat {
    if n < 0 then -n else n
  }

  /** `abs(int(parts[k].split(",")[0]))`, or None when that raises. */
  function Field(parts: seq<string>, k: nat): Option<int> {
    if k >= |parts| then None
    else match ParseInt(Split(parts[k], ',')[0])
      case None => None
      case Some(n) => Some(Abs(n))
  }

  /** What kind of line the automaton takes a diff line for; a hunk header with what parses of its numbers. */
  datatype Kind =
    | HunkLine(text: string, oldNo: Option<int>, newNo: Option<int>)
    | FileLine(text: string)
    | Minus(text: string)
    | Plus(text: string)
    | Plain(text: string)

  function KindOf(line: string): Kind {
    var text := StripNewlines(line);
    var parts := Split(text, ' ');
    if "@@" <= text then HunkLine(text, Field(parts, 1), Field(parts, 2))
    else if "---" <= text || "+++" <= text then FileLine(text)
    else if "-" <= text then Minus(text[1..])
    else if "+" <= text then Plus(text[1..])
    else Plain(if " " <= text then text[1..] else text)
  }

  function Kinds(lines: seq<string>): seq<Kind> {
    if lines == [] then [] else [KindOf(lines[0])] + Kinds(lines[1..])
  }

  /** The row for one line, and the counters after it. A header resets them as far as it parses. */
  function Advance(kind: Kind, at: Numbers): (Row, Numbers) {
    match kind
    case HunkLine(text, o, n) =>
      (Header(text), if o.None? then at else Numbers(o.value, n.GetOr(at.newNo)))
    case FileLine(text) => (Header(text), at)
    case Minus(text) => (Removed(at.oldNo, text), at.(oldNo := at.oldNo + 1))
    case Plus(text) => (Added(at.newNo, text), at.(newNo := at.newNo + 1))
    case Plain(text) => (Context(at.oldNo, at.newNo, text), Numbers(at.oldNo + 1, at.newNo + 1))
  }

  function Rows(kinds: seq<Kind>, at: Numbers): seq<Row> {
    if kinds == [] then []
    else
      var (row, next) := Advance(kinds[0], at);
      [row] + Rows(kinds[1..], next)
  }

  function After(kinds: seq<Kind>, at: Numbers): Numbers {
    if kinds == [] then at else After(kinds[1..], Advance(kinds[0], at).1)
  }

  /** All rows of a diff. */
  function RowsOf(lines: seq<string>): seq<Row> {
    Rows(Kinds(lines), Numbers(0, 0))
  }

  /** What the row of a line shows of it: a header the line itself, without its end; any other row the line without its
      end and its tag. */
  ghost predicate Shows(line: string, row: Row) {
    var text := StripNewlines(line);
    match row
    case Header(t) => ("@@" <= text || "---" <= text || "+++" <= text) && t == text
    case Removed(_, t) => "-" <= text && !("---" <= text) && text == "-" + t
    case Added(_, t) => "+" <= text && !("+++" <= text) && text == "+" + t
    case Context(_, _, t) => text == " " + t || (text == t && !(" " <= text || "-" <= text || "+" <= text || "@@" <= text))
  }

  lemma {:induction false} StripNewlinesIs(s: string)
    ensures var r := StripNewlines(s);
      && r <= s && (r != "" ==> r[|r| - 1] != '\n') && forall i :: |r| <= i < |s| ==> s[i] == '\n'
  {
    if s != "" && s[|s| - 1] == '\n' {
      StripNewlinesIs(s[..|s| - 1]);
    }
  }

  lemma LineShown(line: string, at: Numbers)
    ensures Shows(line, Advance(KindOf(line), at).0) == true
  {
    var text := StripNewlines(line);
    assert "---" <= text ==> "-" <= text;
    assert "+++" <= text ==> "+" <= text;
    assert "-" <= text ==> text == "-" + text[1..];
    assert "+" <= text ==> text == "+" + text[1..];
    assert " " <= text ==> text == " " + text[1..];
  }

  /** A hunk line whose numbers do not parse leaves the counters as they are, from the first such number on. */
  lemma OddHunkLine(line: string, at: Numbers)
    requires "@@" <= StripNewlines(line)
    ensures var (parts, next) := (Split(StripNewlines(line), ' '), Advance(KindOf(line), at).1);
      if Field(parts, 1).None? then next == at
      else next == Numbers(Field(parts, 1).value, if Field(parts, 2).None? then at.newNo else Field(parts, 2).value)
    ensures forall parts, k: nat :: k >= |parts| || ParseInt(Split(parts[k], ',')[0]).None? ==> Field(parts, k).None?
  {
  }

  /** Every line of the diff has its row, in its place; so the headers are the file and hunk lines, word for word. */
  lemma RowPerLine(lines: seq<string>)
    ensures |RowsOf(lines)| == |lines|
    ensures forall i | 0 <= i < |lines| :: Shows(lines[i], RowsOf(lines)[i])
  {
    RowsShown(lines, Numbers(0, 0));
  }

  lemma {:induction false} RowsShown(lines: seq<string>, at: Numbers)
    ensures |Rows(Kinds(lines), at)| == |lines|
    ensures forall i | 0 <= i < |lines| :: Shows(lines[i], Rows(Kinds(lines), at)[i])
  {
    if lines != [] {
      var (row, next) := Advance(KindOf(lines[0]), at);
      LineShown(lines[0], at);
      RowsShown(lines[1..], next);
      RowsCons(KindOf(lines[0]), Kinds(lines[1..]), at);
      forall i | 0 <= i < |lines| ensures Shows(lines[i], Rows(Kinds(lines), at)[i]) == true {
        if i > 0 {
          assert lines[i] == lines[1..][i - 1];
        }
      }
    }
  }

  lemma {:induction false} RowsAppend(kinds: seq<Kind>, more: seq<Kind>, at: Numbers)
    ensures Rows(kinds + more, at) == Rows(kinds, at) + Rows(more, After(kinds, at))
    ensures After(kinds + more, at) == After(more, After(kinds, at))
  {
    if kinds == [] {
      assert kinds + more == more;
    } else {
      assert (kinds + more)[1..] == kinds[1..] + more;
      RowsAppend(kinds[1..], more, Advance(kinds[0], at).1);
    }
  }

  lemma {:induction false} KindsAppend(lines: seq<string>, more: seq<string>)
    ensures Kinds(lines + more) == Kinds(lines) + Kinds(more)
  {
    if lines == [] {
      assert lines + more == more;
    } else {
      assert (lines + more)[1..] == lines[1..] + more;
      KindsAppend(lines[1..], more);
    }
  }

  lemma RowsStep(lines: seq<string>, line: string, at: Numbers)
    ensures var (row, next) := Advance(KindOf(line), After(Kinds(lines), at));
      && Rows(Kinds(lines + [line]), at) == Rows(Kinds(lines), at) + [row]
      && After(Kinds(lines + [line]), at) == next
  {
    KindsAppend(lines, [line]);
    assert Kinds([line]) == [KindOf(line)] by {
      assert [line][1..] == [];
    }
    RowsAppend(Kinds(lines), [KindOf(line)], at);
    assert [KindOf(line)][1..] == [];
  }

  /** The loop of `diff_commits` over the lines of the unified diff. */
  method DiffCommits(lines: seq<string>) returns (rows: seq<Row>)
    ensures rows == RowsOf(lines)
  {
    rows := [];
    var oldNo, newNo := 0, 0;
    ghost var start := Numbers(0, 0);
    for i := 0 to |lines|
      invariant rows == Rows(Kinds(lines[..i]), start) && Numbers(oldNo, newNo) == After(Kinds(lines[..i]), start)
    {
      RowsStep(lines[..i], lines[i], start);
      assert lines[..i + 1] == lines[..i] + [lines[i]];
      var row;
      row, oldNo, newNo := DiffLine(lines[i], oldNo, newNo);
      rows := rows + [row];
    }
    assert lines[..|lines|] == lines;
  }

  /** The body of that loop. */
  method DiffLine(line: string, oldNo: int, newNo: int) returns (row: Row, oldNo': int, newNo': int)
    ensures (row, Numbers(oldNo', newNo')) == Advance(KindOf(line), Numbers(oldNo, newNo))
  {
    oldNo', newNo' := oldNo, newNo;
    var text := StripNewlines(line);
    if "@@" <= text {
      var parts := Split(text, ' ');
      var o, n := Field(parts, 1), Field(parts, 2);
      if o.Some? {
        oldNo' := o.value;
        if n.Some? {
          newNo' := n.value;
        }
      }
      row := Header(text);
    } else if "---" <= text || "+++" <= text {
      row := Header(text);
    } else if "-" <= text {
      row := Removed(oldNo, text[1..]);
      oldNo' := oldNo + 1;
    } else if "+" <= text {
      row := Added(newNo, text[1..]);
      newNo' := newNo + 1;
    } else {
      row := Context(oldNo, newNo, if " " <= text then text[1..] else text);
      oldNo', newNo' := oldNo + 1, newNo + 1;
    }
  }

  // ----- headers -----

  lemma {:induction false} StripKeeps(s: string, c: char)
    requires c != '\n'
    ensures StripNewlines([c] + s) == [c] + StripNewlines(s)
  {
    if s != "" && s[|s| - 1] == '\n' {
      assert ([c] + s)[..|s|] == [c] + s[..|s| - 1];
      StripKeeps(s[..|s| - 1], c);
    }
  }

  lemma RangePlain(start: nat, length: nat)
    ensures ' ' !in Range(start, length)
  {
    forall n: nat ensures ' ' !in Show(n) {}
  }

  lemma RangeField(sign: char, start: nat, length: nat)
    requires sign == '-' || sign == '+'
    ensures var n := if length == 0 then start else start + 1;
      Split([sign] + Range(start, length), ',')[0] == [sign] + Show(n)
  {
    var n := if length == 0 then start else start + 1;
    var head := [sign] + Show(n);
    assert ',' !in head;
    if length == 1 {
      SplitWhole(head, ',');
    } else {
      assert [sign] + Range(start, length) == head + [','] + Show(length);
      SplitFirst(head, ',', Show(length));
    }
  }

  lemma HeaderParts(o: string, n: string)
    requires ' ' !in o && ' ' !in n
    ensures Split("@@ -" + o + " +" + n + " @@", ' ') == ["@@", ['-'] + o, ['+'] + n, "@@"]
  {
    var o', n' := ['-'] + o, ['+'] + n;
    var tail := n' + [' '] + "@@";
    var rest := o' + [' '] + tail;
    assert "@@ -" + o + " +" + n + " @@" == "@@" + [' '] + rest;
    SplitFirst("@@", ' ', rest);
    SplitFirst(o', ' ', tail);
    SplitFirst(n', ' ', "@@");
    SplitWhole("@@", ' ');
  }

  lemma FieldValue(parts: seq<string>, k: nat, sign: char, start: nat, length: nat)
    requires k < |parts| && (sign == '-' || sign == '+') && parts[k] == [sign] + Range(start, length)
    ensures Field(parts, k) == Some(if length == 0 then start else start + 1)
  {
    RangeField(sign, start, length);
    ParseSigned(if length == 0 then start else start + 1);
  }

  lemma HeaderText(h: Hunk)
    ensures StripNewlines(HeaderLine(h)) == HeaderLine(h) && "@@" <= HeaderLine(h)
  {
    var line := HeaderLine(h);
    assert line[|line| - 1] == '@' && line[..2] == "@@";
  }

  /** A hunk's header gives the numbers of its first lines; for an empty side, of the line before. */
  function HunkKind(h: Hunk): Kind {
    HunkLine(HeaderLine(h), Some(if |OldSide(h.ops)| == 0 then h.oldStart else h.oldStart + 1),
             Some(if |NewSide(h.ops)| == 0 then h.newStart else h.newStart + 1))
  }

  lemma HeaderKind(h: Hunk)
    ensures KindOf(HeaderLine(h)) == HunkKind(h)
  {
    var o, n := |OldSide(h.ops)|, |NewSide(h.ops)|;
    HeaderText(h);
    RangePlain(h.oldStart, o);
    RangePlain(h.newStart, n);
    HeaderParts(Range(h.oldStart, o), Range(h.newStart, n));
    var parts := Split(HeaderLine(h), ' ');
    FieldValue(parts, 1, '-', h.oldStart, o);
    FieldValue(parts, 2, '+', h.newStart, n);
  }

  // ----- bodies -----

  /** A removed or inserted line the automaton mistakes for a file line. */
  predicate Masked(op: Op) {
    match op
    case Keep(_) => false
    case Remove(line) => "--" <= line
    case Insert(line) => "++" <= line
  }

  /** The rows a hunk's lines deserve, given the numbers of its first lines. */
  function Numbered(ops: seq<Op>, o: int, n: int): seq<Row> {
    if ops == [] then []
    else
      var text := StripNewlines(ops[0].line);
      match ops[0]
      case Keep(_) => [Context(o, n, text)] + Numbered(ops[1..], o + 1, n + 1)
      case Remove(_) => [Removed(o, text)] + Numbered(ops[1..], o + 1, n)
      case Insert(_) => [Added(n, text)] + Numbered(ops[1..], o, n + 1)
  }

  function RowsFor(h: Hunk): seq<Row> {
    Numbered(h.ops, h.oldStart + 1, h.newStart + 1)
  }

  /** The rows the whole diff deserves. */
  function Deserved(hunks: seq<Hunk>): seq<Row> {
    if hunks == [] then []
    else RowsFor(hunks[0]) + Deserved(hunks[1..])
  }

  /** The rows that are not headers. */
  function Body(rows: seq<Row>): seq<Row> {
    if rows == [] then [] else (if rows[0].Header? then [] else [rows[0]]) + Body(rows[1..])
  }

  lemma {:induction false} BodyAppend(rows: seq<Row>, more: seq<Row>)
    ensures Body(rows + more) == Body(rows) + Body(more)
  {
    if rows == [] {
      assert rows + more == more;
    } else {
      assert (rows + more)[1..] == rows[1..] + more;
      BodyAppend(rows[1..], more);
    }
  }

  lemma {:induction false} StripPrefix(line: string, c: char)
    requires c != '\n'
    ensures [c, c] <= StripNewlines(line) <==> [c, c] <= line
  {
    if line != "" && line[|line| - 1] == '\n' {
      StripPrefix(line[..|line| - 1], c);
      assert [c, c] <= line ==> [c, c] <= line[..|line| - 1];
    }
  }

  /** What the automaton takes a hunk's line for. */
  function OpKind(op: Op): Kind {
    var text := StripNewlines(op.line);
    if Masked(op) then FileLine([OpLine(op)[0]] + text)
    else match op
      case Keep(_) => Plain(text)
      case Remove(_) => Minus(text)
      case Insert(_) => Plus(text)
  }

  lemma OpLineKind(op: Op)
    ensures KindOf(OpLine(op)) == OpKind(op)
  {
    var tag := OpLine(op)[0];
    assert OpLine(op) == [tag] + op.line;
    StripKeeps(op.line, tag);
    StripPrefix(op.line, '-');
    StripPrefix(op.line, '+');
    Tagged(tag, StripNewlines(op.line));
  }

  /** Which prefixes a text with one more leading character has. */
  lemma Tagged(tag: char, text: string)
    ensures ([tag] + text)[1..] == text
    ensures "-" <= [tag] + text <==> tag == '-'
    ensures "+" <= [tag] + text <==> tag == '+'
    ensures " " <= [tag] + text <==> tag == ' '
    ensures "@@" <= [tag] + text ==> tag == '@'
    ensures "---" <= [tag] + text <==> tag == '-' && "--" <= text
    ensures "+++" <= [tag] + text <==> tag == '+' && "++" <= text
  {
    var s := [tag] + text;
    assert "-" <= s <==> s[0] == '-';
    assert "+" <= s <==> s[0] == '+';
    assert "---" <= s <==> |s| >= 3 && s[0] == '-' && s[1] == '-' && s[2] == '-';
    assert "+++" <= s <==> |s| >= 3 && s[0] == '+' && s[1] == '+' && s[2] == '+';
    assert "--" <= text <==> |text| >= 2 && text[0] == '-' && text[1] == '-';
    assert "++" <= text <==> |text| >= 2 && text[0] == '+' && text[1] == '+';
  }

  function OpKinds(ops: seq<Op>): seq<Kind> {
    if ops == [] then [] else [OpKind(ops[0])] + OpKinds(ops[1..])
  }

  lemma {:induction false} OpLinesKinds(ops: seq<Op>)
    ensures Kinds(OpLines(ops)) == OpKinds(ops)
  {
    if ops != [] {
      OpLinesKinds(ops[1..]);
      OpLineKind(ops[0]);
      assert OpLines(ops)[1..] == OpLines(ops[1..]);
    }
  }

  ghost predicate Unmasked(ops: seq<Op>) {
    forall op | op in ops :: !Masked(op)
  }

  /** The body rows of a hunk: exactly the deserved ones without masked lines, fewer with them. */
  ghost predicate Exact(body: seq<Row>, deserved: seq<Row>, clean: bool) {
    |body| <= |deserved| && (|body| == |deserved| <==> clean) && (clean ==> body == deserved)
  }

  lemma OneOp(op: Op, at: Numbers)
    ensures var (row, next) := Advance(OpKind(op), at);
      if Masked(op) then row.Header? && next == at
      else row == RowOf(op, at.oldNo - 1, at.newNo - 1) && next == Numbers(at.oldNo + OldStep(op), at.newNo + NewStep(op))
  {
  }

  lemma ExactCons(row: Row, row': Row, body: seq<Row>, deserved: seq<Row>, masked: bool, clean: bool)
    requires if masked then row.Header? else row == row' && !row.Header?
    requires Exact(Body(body), deserved, clean) || (masked && |Body(body)| <= |deserved|)
    ensures Exact(Body([row] + body), [row'] + deserved, clean && !masked)
  {
    assert ([row] + body)[1..] == body;
  }

  lemma ExactStep(kind: Kind, kinds: seq<Kind>, at: Numbers, row': Row, deserved: seq<Row>, masked: bool, clean: bool)
    requires var (row, next) := Advance(kind, at);
      && (if masked then row.Header? else row == row' && !row.Header?)
      && var body := Body(Rows(kinds, next));
         Exact(body, deserved, clean) == true || (masked && |body| <= |deserved|)
    ensures Exact(Body(Rows([kind] + kinds, at)), [row'] + deserved, clean && !masked) == true
  {
    RowsCons(kind, kinds, at);
    var (row, next) := Advance(kind, at);
    ExactCons(row, row', Rows(kinds, next), deserved, masked, clean);
  }

  lemma BodyStep(op: Op, rest: seq<Op>, kinds: seq<Kind>, at: Numbers, clean: bool)
    requires var next := Advance(OpKind(op), at).1;
      Exact(Body(Rows(kinds, next)), Numbered(rest, next.oldNo, next.newNo), clean) == true
    ensures var tail := Numbered(rest, at.oldNo + OldStep(op), at.newNo + NewStep(op));
      Exact(Body(Rows([OpKind(op)] + kinds, at)), [RowOf(op, at.oldNo - 1, at.newNo - 1)] + tail, clean && !Masked(op)) == true
  {
    var o, n := at.oldNo + OldStep(op), at.newNo + NewStep(op);
    OneOp(op, at);
    if Masked(op) {
      NumberedCount(rest, o, n);
      NumberedCount(rest, at.oldNo, at.newNo);
    }
    ExactStep(OpKind(op), kinds, at, RowOf(op, at.oldNo - 1, at.newNo - 1), Numbered(rest, o, n), Masked(op), clean);
  }

  lemma {:induction false} BodyRows(ops: seq<Op>, at: Numbers)
    ensures Exact(Body(Rows(OpKinds(ops), at)), Numbered(ops, at.oldNo, at.newNo), Unmasked(ops)) == true
  {
    if ops != [] {
      var op, rest := ops[0], ops[1..];
      BodyRows(rest, Advance(OpKind(op), at).1);
      BodyStep(op, rest, OpKinds(rest), at, Unmasked(rest));
      NumberedCons(ops, at.oldNo - 1, at.newNo - 1);
      UnmaskedCons(ops);
    }
  }

  lemma RowsCons(kind: Kind, kinds: seq<Kind>, at: Numbers)
    ensures var (row, next) := Advance(kind, at); Rows([kind] + kinds, at) == [row] + Rows(kinds, next)
  {
    assert ([kind] + kinds)[1..] == kinds;
  }

  lemma UnmaskedCons(ops: seq<Op>)
    requires ops != []
    ensures Unmasked(ops) <==> !Masked(ops[0]) && Unmasked(ops[1..])
  {
    assert ops == [ops[0]] + ops[1..];
  }

  // ----- whole diffs -----

  /** No line of the diff is masked. */
  ghost predicate Clean(hunks: seq<Hunk>) {
    forall h | h in hunks :: Unmasked(h.ops)
  }

  lemma {:induction false} NumberedCount(ops: seq<Op>, o: int, n: int)
    ensures |Numbered(ops, o, n)| == |ops|
  {
    if ops != [] {
      NumberedCount(ops[1..], if ops[0].Insert? then o else o + 1, if ops[0].Remove? then n else n + 1);
    }
  }

  /** A counter that no line of the hunk uses may start anywhere. */
  lemma LaterSides(ops: seq<Op>)
    requires ops != []
    ensures OldSide(ops) == if ops[0].Insert? then OldSide(ops[1..]) else [ops[0].line] + OldSide(ops[1..])
    ensures NewSide(ops) == if ops[0].Remove? then NewSide(ops[1..]) else [ops[0].line] + NewSide(ops[1..])
  {
    assert [] + OldSide(ops[1..]) == OldSide(ops[1..]) && [] + NewSide(ops[1..]) == NewSide(ops[1..]);
  }

  lemma {:induction false} NumberedUnused(ops: seq<Op>, o: int, n: int, o': int, n': int)
    requires OldSide(ops) == [] || o == o'
    requires NewSide(ops) == [] || n == n'
    ensures Numbered(ops, o, n) == Numbered(ops, o', n')
  {
    if ops != [] && (o, n) != (o', n') {
      LaterSides(ops);
      if ops[0].Remove? {
        NumberedUnused(ops[1..], o + 1, n, o' + 1, n');
      } else if ops[0].Insert? {
        NumberedUnused(ops[1..], o, n + 1, o', n' + 1);
      }
    }
  }

  function KindsOf(h: Hunk): seq<Kind> {
    [HunkKind(h)] + OpKinds(h.ops)
  }

  function HunkKinds(hunks: seq<Hunk>): seq<Kind> {
    if hunks == [] then [] else KindsOf(hunks[0]) + HunkKinds(hunks[1..])
  }

  lemma {:induction false} HunkLinesKinds(hunks: seq<Hunk>)
    ensures Kinds(HunkLines(hunks)) == HunkKinds(hunks)
  {
    if hunks != [] {
      var h := hunks[0];
      var first := [HeaderLine(h)] + OpLines(h.ops);
      HunkLinesKinds(hunks[1..]);
      HeaderKind(h);
      OpLinesKinds(h.ops);
      KindsAppend(first, HunkLines(hunks[1..]));
      assert first[1..] == OpLines(h.ops);
    }
  }

  lemma OneHunkRows(h: Hunk, at: Numbers)
    ensures Exact(Body(Rows(KindsOf(h), at)),
                  Numbered(h.ops, h.oldStart + 1, h.newStart + 1), Unmasked(h.ops)) == true
  {
    var (row, start) := Advance(HunkKind(h), at);
    RowsCons(HunkKind(h), OpKinds(h.ops), at);
    var body := Rows(OpKinds(h.ops), start);
    assert ([row] + body)[1..] == body;
    BodyRows(h.ops, start);
    NumberedUnused(h.ops, start.oldNo, start.newNo, h.oldStart + 1, h.newStart + 1);
  }

  lemma ExactAppend(x: seq<Row>, y: seq<Row>, a: seq<Row>, b: seq<Row>, clean: bool, clean': bool)
    requires Exact(x, a, clean) == true && Exact(y, b, clean') == true
    ensures Exact(x + y, a + b, clean && clean') == true
  {
  }

  lemma {:induction false} HunkRows(hunks: seq<Hunk>, at: Numbers)
    ensures Exact(Body(Rows(HunkKinds(hunks), at)), Deserved(hunks), Clean(hunks)) == true
  {
    if hunks != [] {
      var h := hunks[0];
      HunkRows(hunks[1..], After(KindsOf(h), at));
      MoreHunks(hunks, at, HunkKinds(hunks[1..]), Deserved(hunks[1..]), Clean(hunks[1..]));
    } else {
      NoHunks(at);
    }
  }

  lemma NoHunks(at: Numbers)
    ensures Exact(Body(Rows(HunkKinds([]), at)), Deserved([]), Clean([])) == true
  {
    NoRows(at);
  }

  lemma MoreHunks(hunks: seq<Hunk>, at: Numbers, kinds: seq<Kind>, deserved: seq<Row>, clean: bool)
    requires hunks != [] && kinds == HunkKinds(hunks[1..]) && deserved == Deserved(hunks[1..]) && clean == Clean(hunks[1..])
    requires Exact(Body(Rows(kinds, After(KindsOf(hunks[0]), at))), deserved, clean) == true
    ensures Exact(Body(Rows(HunkKinds(hunks), at)), Deserved(hunks), Clean(hunks)) == true
  {
    OneMoreHunk(hunks[0], kinds, at, deserved, clean);
    CleanSplit(hunks);
  }

  lemma NoRows(at: Numbers)
    ensures Exact(Body(Rows([], at)), [], true) == true
  {
  }

  /** The rows of a hunk come before those of the hunks that follow. */
  lemma OneMoreHunk(h: Hunk, rest: seq<Kind>, at: Numbers, deserved: seq<Row>, clean: bool)
    requires Exact(Body(Rows(rest, After(KindsOf(h), at))), deserved, clean) == true
    ensures Exact(Body(Rows(KindsOf(h) + rest, at)),
                  RowsFor(h) + deserved, Unmasked(h.ops) && clean) == true
  {
    var first := KindsOf(h);
    RowsAppend(first, rest, at);
    BodyAppend(Rows(first, at), Rows(rest, After(first, at)));
    OneHunkRows(h, at);
    ExactAppend(Body(Rows(first, at)), Body(Rows(rest, After(first, at))),
                Numbered(h.ops, h.oldStart + 1, h.newStart + 1), deserved, Unmasked(h.ops), clean);
  }

  lemma CleanSplit(hunks: seq<Hunk>)
    requires hunks != []
    ensures Clean(hunks) <==> Unmasked(hunks[0].ops) && Clean(hunks[1..])
  {
    assert hunks == [hunks[0]] + hunks[1..];
  }

  /** The rows of the whole diff that are not headers. */
  function Shown(hunks: seq<Hunk>, from: string, to: string): seq<Row> {
    Body(RowsOf(UnifiedDiff(hunks, from, to)))
  }

  /**
   * The automaton gives every changed and context line of the diff its row, with the right numbers,
   * exactly when no removed line starts with "--" and no added line with "++".
   */
  lemma DiffNumbersLines(hunks: seq<Hunk>, from: string, to: string)
    ensures Shown(hunks, from, to) == Deserved(hunks) <==> Clean(hunks)
  {
    if hunks != [] {
      ShownBody(hunks, from, to);
      HunkRows(hunks, Numbers(0, 0));
    }
  }

  /** The two file lines leave no row in the body and the counters alone. */
  lemma ShownBody(hunks: seq<Hunk>, from: string, to: string)
    requires hunks != []
    ensures Shown(hunks, from, to) == Body(Rows(HunkKinds(hunks), Numbers(0, 0)))
  {
    var first, second := "--- " + from, "+++ " + to;
    var at := Numbers(0, 0);
    FileKind('-', from);
    FileKind('+', to);
    HunkLinesKinds(hunks);
    assert ['-', '-', '-', ' '] + from == first && ['+', '+', '+', ' '] + to == second;
    KindsAppend([first, second], HunkLines(hunks));
    TwoKinds(first, second);
    var files := [KindOf(first), KindOf(second)];
    RowsAppend(files, HunkKinds(hunks), at);
    BodyAppend(Rows(files, at), Rows(HunkKinds(hunks), at));
    FilesOnly(files, at);
    assert [] + Body(Rows(HunkKinds(hunks), at)) == Body(Rows(HunkKinds(hunks), at));
  }

  lemma TwoKinds(first: string, second: string)
    ensures Kinds([first, second]) == [KindOf(first), KindOf(second)]
  {
    assert [first, second][1..] == [second] && [second][1..] == [];
    assert Kinds([second]) == [KindOf(second)];
  }

  lemma {:induction false} FilesOnly(kinds: seq<Kind>, at: Numbers)
    requires forall k | k in kinds :: k.FileLine?
    ensures After(kinds, at) == at && Body(Rows(kinds, at)) == []
  {
    if kinds != [] {
      assert kinds[0] in kinds;
      FilesOnly(kinds[1..], at);
      assert Rows(kinds, at)[1..] == Rows(kinds[1..], at);
    }
  }

  lemma FileKind(c: char, name: string)
    requires c == '-' || c == '+'
    ensures KindOf([c, c, c, ' '] + name).FileLine?
  {
    var line := [c, c, c, ' '] + name;
    StripKeeps([c, c, ' '] + name, c);
    assert line == [c] + ([c, c, ' '] + name);
    StripKeeps([c, ' '] + name, c);
    assert [c, c, ' '] + name == [c] + ([c, ' '] + name);
    StripKeeps([' '] + name, c);
    assert [c, ' '] + name == [c] + ([' '] + name);
    var rest := StripNewlines([' '] + name);
    assert StripNewlines(line) == [c] + ([c] + ([c] + rest));
    assert [c, c, c] <= StripNewlines(line);
    Tagged(c, [c] + ([c] + rest));
  }

  // ----- what the deserved rows mean -----

  function StripAll(lines: seq<string>): seq<string> {
    seq(|lines|, i requires 0 <= i < |lines| => StripNewlines(lines[i]))
  }

  function OldStep(op: Op): nat { if op.Insert? then 0 else 1 }

  function NewStep(op: Op): nat { if op.Remove? then 0 else 1 }

  function OldEnd(ops: seq<Op>, o: nat): nat {
    if ops == [] then o else OldEnd(ops[1..], o + OldStep(ops[0]))
  }

  function NewEnd(ops: seq<Op>, n: nat): nat {
    if ops == [] then n else NewEnd(ops[1..], n + NewStep(ops[0]))
  }

  lemma {:induction false} Ends(ops: seq<Op>, o: nat, n: nat)
    ensures OldEnd(ops, o) == o + |OldSide(ops)| && NewEnd(ops, n) == n + |NewSide(ops)|
  {
    if ops != [] {
      Ends(ops[1..], o + OldStep(ops[0]), n + NewStep(ops[0]));
    }
  }

  /** The texts of a hunk's lines are those of x from o on and of y from n on. */
  ghost predicate Fits(x: seq<string>, y: seq<string>, ops: seq<Op>, o: nat, n: nat) {
    if ops == [] then o <= |x| && n <= |y|
    else
      var op := ops[0];
      && (op.Insert? || (o < |x| && x[o] == StripNewlines(op.line)))
      && (op.Remove? || (n < |y| && y[n] == StripNewlines(op.line)))
      && Fits(x, y, ops[1..], o + OldStep(op), n + NewStep(op))
  }

  /** The hunks lead from x to y, text for text. */
  ghost predicate TextLeads(x: seq<string>, y: seq<string>, hunks: seq<Hunk>) {
    && (forall h | h in hunks :: h.ops != [] && Fits(x, y, h.ops, h.oldStart, h.newStart))
    && (forall m: nat | m <= |hunks| :: AgreeBefore(x, y, hunks, m))
  }

  lemma {:induction false} SidesFit(a: seq<string>, b: seq<string>, ops: seq<Op>, o: nat, n: nat)
    requires Lies(OldSide(ops), a, o) && Lies(NewSide(ops), b, n)
    ensures Fits(StripAll(a), StripAll(b), ops, o, n) == true
  {
    if ops != [] {
      var op := ops[0];
      if !op.Insert? {
        LiesOn(op.line, OldSide(ops[1..]), a, o);
      }
      if !op.Remove? {
        LiesOn(op.line, NewSide(ops[1..]), b, n);
      }
      LaterSides(ops);
      SidesFit(a, b, ops[1..], o + OldStep(op), n + NewStep(op));
    }
  }

  /** The lines stand at place o of a version. */
  ghost predicate Lies(part: seq<string>, whole: seq<string>, o: nat) {
    o + |part| <= |whole| && forall k | 0 <= k < |part| :: whole[o + k] == part[k]
  }

  lemma LiesOn(line: string, rest: seq<string>, whole: seq<string>, o: nat)
    requires Lies([line] + rest, whole, o)
    ensures o < |whole| && whole[o] == line && Lies(rest, whole, o + 1)
  {
    assert ([line] + rest)[0] == line;
    forall k | 0 <= k < |rest| ensures whole[o + 1 + k] == rest[k] {
      assert ([line] + rest)[k + 1] == rest[k];
    }
  }

  lemma StripGap(a: seq<string>, b: seq<string>, i: nat, j: nat, o: nat, n: nat)
    requires Gap(a, b, i, j, o, n)
    ensures Gap(StripAll(a), StripAll(b), i, j, o, n)
  {
    var x, y := StripAll(a), StripAll(b);
    assert |a[i..o]| == |b[j..n]|;
    forall k | 0 <= k < o - i ensures x[i..o][k] == y[j..n][k] {
      assert a[i..o][k] == b[j..n][k];
    }
  }

  lemma TextsLead(a: seq<string>, b: seq<string>, hunks: seq<Hunk>)
    requires Leads(a, b, hunks)
    ensures TextLeads(StripAll(a), StripAll(b), hunks)
  {
    forall h | h in hunks ensures h.ops != [] && Fits(StripAll(a), StripAll(b), h.ops, h.oldStart, h.newStart) == true {
      assert Matches(a, b, h);
      SidesFit(a, b, h.ops, h.oldStart, h.newStart);
    }
    forall m: nat | m <= |hunks| ensures AgreeBefore(StripAll(a), StripAll(b), hunks, m) == true {
      assert AgreeBefore(a, b, hunks, m);
      var (from, to) := (From(hunks, m), To(hunks, m, |a|, |b|));
      StripGap(a, b, from.0, from.1, to.0, to.1);
    }
  }

  /** A row carries the text its numbers name. */
  ghost predicate Truthful(x: seq<string>, y: seq<string>, row: Row) {
    && (row.Removed? || row.Context? ==> 1 <= row.oldNo <= |x| && row.text == x[row.oldNo - 1])
    && (row.Added? || row.Context? ==> 1 <= row.newNo <= |y| && row.text == y[row.newNo - 1])
  }

  lemma {:induction false} NumberedTruthful(x: seq<string>, y: seq<string>, ops: seq<Op>, o: nat, n: nat)
    requires Fits(x, y, ops, o, n)
    ensures forall row | row in Numbered(ops, o + 1, n + 1) :: !row.Header? && Truthful(x, y, row)
  {
    if ops != [] {
      NumberedTruthful(x, y, ops[1..], o + OldStep(ops[0]), n + NewStep(ops[0]));
      forall row | row in Numbered(ops, o + 1, n + 1) ensures !row.Header? && Truthful(x, y, row) == true {
        assert row == Numbered(ops, o + 1, n + 1)[0]
            || row in Numbered(ops[1..], o + 1 + OldStep(ops[0]), n + 1 + NewStep(ops[0]));
      }
    }
  }

  lemma {:induction false} DeservedTruthful(x: seq<string>, y: seq<string>, hunks: seq<Hunk>)
    requires forall h | h in hunks :: Fits(x, y, h.ops, h.oldStart, h.newStart)
    ensures forall row | row in Deserved(hunks) :: Truthful(x, y, row)
  {
    if hunks != [] {
      var h := hunks[0];
      assert h in hunks;
      NumberedTruthful(x, y, h.ops, h.oldStart, h.newStart);
      DeservedTruthful(x, y, hunks[1..]);
    }
  }

  // ----- replaying the rows -----

  /** Texts i up to k, where that range exists. */
  function Slice(x: seq<string>, i: int, k: int): seq<string> {
    if 0 <= i <= k <= |x| then x[i..k] else []
  }

  /** A copy of the new version in the making: the texts written, and how many old ones are used up. */
  datatype Copy = Copy(out: seq<string>, used: int)

  /** Copies the old texts up to the row's place, drops the old text of a removed or context row, writes the
      text of an added or context row. Only the row's own numbers say where it belongs. */
  function ReplayRow(x: seq<string>, row: Row, c: Copy): Copy {
    match row
    case Header(_) => c
    case Context(o, n, text) => Copy(c.out + Slice(x, c.used, o - 1) + [text], o)
    case Removed(o, _) => Copy(c.out + Slice(x, c.used, o - 1), o)
    case Added(n, text) =>
      var upTo := c.used + (n - 1 - |c.out|);
      Copy(c.out + Slice(x, c.used, upTo) + [text], upTo)
  }

  function Replay(x: seq<string>, rows: seq<Row>, c: Copy): Copy {
    if rows == [] then c else Replay(x, rows[1..], ReplayRow(x, rows[0], c))
  }

  /** The new version, rebuilt from the old one and the rows. */
  function Rebuilt(x: seq<string>, rows: seq<Row>): seq<string> {
    var c := Replay(x, rows, Copy([], 0));
    c.out + Slice(x, c.used, |x|)
  }

  lemma {:induction false} ReplayAppend(x: seq<string>, rows: seq<Row>, more: seq<Row>, c: Copy)
    ensures Replay(x, rows + more, c) == Replay(x, more, Replay(x, rows, c))
  {
    if rows == [] {
      assert rows + more == more;
    } else {
      assert (rows + more)[1..] == rows[1..] + more;
      ReplayAppend(x, rows[1..], more, ReplayRow(x, rows[0], c));
    }
  }

  lemma ReplayCons(x: seq<string>, row: Row, rest: seq<Row>, c: Copy)
    ensures Replay(x, [row] + rest, c) == Replay(x, rest, ReplayRow(x, row, c))
  {
    assert ([row] + rest)[1..] == rest;
  }

  /** The row of the hunk's next line, when o old and n new lines come before it. */
  function RowOf(op: Op, o: int, n: int): Row {
    var text := StripNewlines(op.line);
    match op
    case Keep(_) => Context(o + 1, n + 1, text)
    case Remove(_) => Removed(o + 1, text)
    case Insert(_) => Added(n + 1, text)
  }

  lemma NumberedCons(ops: seq<Op>, o: int, n: int)
    requires ops != []
    ensures Numbered(ops, o + 1, n + 1)
         == [RowOf(ops[0], o, n)] + Numbered(ops[1..], o + OldStep(ops[0]) + 1, n + NewStep(ops[0]) + 1)
  {
  }

  /** One row closes the gap before it and leaves none. */
  lemma ReplayOne(x: seq<string>, y: seq<string>, op: Op, i: nat, j: nat, o: nat, n: nat)
    requires Gap(x, y, i, j, o, n)
    requires op.Insert? || o < |x|
    requires op.Remove? || (n < |y| && y[n] == StripNewlines(op.line))
    ensures ReplayRow(x, RowOf(op, o, n), Copy(y[..j], i)) == Copy(y[..n + NewStep(op)], o + OldStep(op))
  {
    assert |x[i..o]| == |y[j..n]|;
    assert y[..j] + y[j..n] == y[..n];
    if !op.Remove? {
      assert y[..n] + [y[n]] == y[..n + 1];
    }
  }

  /** Replaying rows is replaying the first, wherever the copy stands before it, and then the rest. */
  lemma ReplayHead(x: seq<string>, y: seq<string>, op: Op, rest: seq<Row>, i: nat, j: nat, o: nat, n: nat)
    requires Gap(x, y, i, j, o, n)
    requires op.Insert? || o < |x|
    requires op.Remove? || (n < |y| && y[n] == StripNewlines(op.line))
    ensures Replay(x, [RowOf(op, o, n)] + rest, Copy(y[..j], i))
         == Replay(x, rest, Copy(y[..n + NewStep(op)], o + OldStep(op)))
  {
    ReplayOne(x, y, op, i, j, o, n);
    ReplayCons(x, RowOf(op, o, n), rest, Copy(y[..j], i));
  }

  lemma {:induction false} ReplayOps(x: seq<string>, y: seq<string>, ops: seq<Op>, o: nat, n: nat)
    requires Fits(x, y, ops, o, n)
    ensures o <= |x| && n <= |y| && NewEnd(ops, n) <= |y|
    ensures Replay(x, Numbered(ops, o + 1, n + 1), Copy(y[..n], o)) == Copy(y[..NewEnd(ops, n)], OldEnd(ops, o))
  {
    if ops != [] {
      var o', n' := o + OldStep(ops[0]), n + NewStep(ops[0]);
      ReplayOps(x, y, ops[1..], o', n');
      NumberedCons(ops, o, n);
      ReplayHead(x, y, ops[0], Numbered(ops[1..], o' + 1, n' + 1), o, n, o, n);
    }
  }

  /** A hunk that is not empty brings the copy from anywhere before it to its end. */
  lemma ReplayHunk(x: seq<string>, y: seq<string>, ops: seq<Op>, i: nat, j: nat, o: nat, n: nat)
    requires ops != [] && Fits(x, y, ops, o, n) && Gap(x, y, i, j, o, n)
    ensures NewEnd(ops, n) <= |y|
    ensures Replay(x, Numbered(ops, o + 1, n + 1), Copy(y[..j], i)) == Copy(y[..NewEnd(ops, n)], OldEnd(ops, o))
  {
    ReplayOps(x, y, ops, o, n);
    NumberedCons(ops, o, n);
    HeadAnywhere(x, y, ops[0], Numbered(ops[1..], o + OldStep(ops[0]) + 1, n + NewStep(ops[0]) + 1), i, j, o, n);
  }

  lemma HeadAnywhere(x: seq<string>, y: seq<string>, op: Op, rest: seq<Row>, i: nat, j: nat, o: nat, n: nat)
    requires Gap(x, y, i, j, o, n)
    requires op.Insert? || o < |x|
    requires op.Remove? || (n < |y| && y[n] == StripNewlines(op.line))
    ensures Replay(x, [RowOf(op, o, n)] + rest, Copy(y[..j], i)) == Replay(x, [RowOf(op, o, n)] + rest, Copy(y[..n], o))
  {
    ReplayHead(x, y, op, rest, i, j, o, n);
    ReplayHead(x, y, op, rest, o, n, o, n);
  }

  /** The rows take the copy from (i, j) to (k, l). */
  ghost predicate Carries(x: seq<string>, y: seq<string>, rows: seq<Row>, i: nat, j: nat, k: nat, l: nat) {
    j <= |y| && l <= |y| && Replay(x, rows, Copy(y[..j], i)) == Copy(y[..l], k)
  }

  lemma CarriesAppend(
    x: seq<string>, y: seq<string>, rows: seq<Row>, more: seq<Row>, i: nat, j: nat, k: nat, l: nat, o: nat, n: nat)
    requires Carries(x, y, rows, i, j, k, l) == true && Carries(x, y, more, k, l, o, n) == true
    ensures Carries(x, y, rows + more, i, j, o, n) == true
  {
    ReplayAppend(x, rows, more, Copy(y[..j], i));
  }

  lemma {:induction false} DeservedAppend(hunks: seq<Hunk>, h: Hunk)
    ensures Deserved(hunks + [h]) == Deserved(hunks) + Numbered(h.ops, h.oldStart + 1, h.newStart + 1)
  {
    if hunks == [] {
      assert [] + [h] == [h] && [h][1..] == [] && Deserved([]) == [];
    } else {
      assert (hunks + [h])[1..] == hunks[1..] + [h] && (hunks + [h])[0] == hunks[0];
      DeservedAppend(hunks[1..], h);
    }
  }

  /** The rows of a hunk take a copy that stands at the end of the hunk before to the hunk's end. */
  lemma CarryHunk(x: seq<string>, y: seq<string>, hunks: seq<Hunk>, m: nat)
    requires TextLeads(x, y, hunks) == true && m < |hunks|
    ensures var (h, from, to) := (hunks[m], From(hunks, m), From(hunks, m + 1));
      Carries(x, y, Numbered(h.ops, h.oldStart + 1, h.newStart + 1), from.0, from.1, to.0, to.1) == true
  {
    var h, from := hunks[m], From(hunks, m);
    assert AgreeBefore(x, y, hunks, m);
    assert h in hunks;
    Ends(h.ops, h.oldStart, h.newStart);
    ReplayHunk(x, y, h.ops, from.0, from.1, h.oldStart, h.newStart);
  }

  lemma {:induction false} CarryHunks(x: seq<string>, y: seq<string>, hunks: seq<Hunk>, m: nat)
    requires TextLeads(x, y, hunks) == true && m <= |hunks|
    ensures var to := From(hunks, m); Carries(x, y, Deserved(hunks[..m]), 0, 0, to.0, to.1) == true
  {
    if m > 0 {
      var h, from, to := hunks[m - 1], From(hunks, m - 1), From(hunks, m);
      CarryHunks(x, y, hunks, m - 1);
      CarryHunk(x, y, hunks, m - 1);
      CarriesAppend(x, y, Deserved(hunks[..m - 1]), Numbered(h.ops, h.oldStart + 1, h.newStart + 1),
                    0, 0, from.0, from.1, to.0, to.1);
      assert hunks[..m] == hunks[..m - 1] + [h];
      DeservedAppend(hunks[..m - 1], h);
    }
  }

  lemma ReplayHunks(x: seq<string>, y: seq<string>, hunks: seq<Hunk>)
    requires TextLeads(x, y, hunks)
    ensures Rebuilt(x, Deserved(hunks)) == y
  {
    var from := From(hunks, |hunks|);
    CarryHunks(x, y, hunks, |hunks|);
    assert hunks[..|hunks|] == hunks;
    assert AgreeBefore(x, y, hunks, |hunks|);
    assert y[..0] == [] && y[..from.1] + y[from.1..|y|] == y;
  }

  /**
   * `diff_commits` is truthful: without masked lines every row carries the line its numbers name, and the
   * rows alone rebuild the new version from the old one (text for text, up to the ends of lines).
   */
  lemma DiffTruthful(a: seq<string>, b: seq<string>, hunks: seq<Hunk>, from: string, to: string)
    requires Leads(a, b, hunks) && Clean(hunks)
    ensures var rows := Shown(hunks, from, to);
      && (forall row | row in rows :: Truthful(StripAll(a), StripAll(b), row))
      && Rebuilt(StripAll(a), rows) == StripAll(b)
  {
    var x, y := StripAll(a), StripAll(b);
    DiffNumbersLines(hunks, from, to);
    TextsLead(a, b, hunks);
    DeservedTruthful(x, y, hunks);
    ReplayHunks(x, y, hunks);
  }

  /** The condition is needed: with "--x" removed as well as "old", the row of "old" says 1 and not 2. */
  lemma MaskedLineMisnumbers()
    ensures var (a, b) := (["--x\n", "old\n"], []);
      var hunks := [Hunk(0, 0, [Remove(a[0]), Remove(a[1])])];
      var rows := Shown(hunks, "1", "2");
      && Leads(a, b, hunks)
      && rows == [Removed(1, "old")]
      && !Truthful(["--x", "old"], [], rows[0])
      && Rebuilt(["--x", "old"], rows) == ["old"]
  {
    var a := ["--x\n", "old\n"];
    var first, second := Remove(a[0]), Remove(a[1]);
    var ops := [first, second];
    var h := Hunk(0, 0, ops);
    SideOne(first, [second]);
    SideOne(second, []);
    assert ops == [first] + [second] && [second] == [second] + [];
    WitnessLeads(a, h);
    WitnessRows(h, first, second);
    var shown := [Removed(1, "old")];
    assert shown[1..] == [];
    assert Replay(["--x", "old"], shown, Copy([], 0)) == Copy([], 1);
    assert Slice(["--x", "old"], 1, 2) == ["old"];
  }

  lemma SideOne(op: Op, rest: seq<Op>)
    ensures OldSide([op] + rest) == (if op.Insert? then [] else [op.line]) + OldSide(rest)
    ensures NewSide([op] + rest) == (if op.Remove? then [] else [op.line]) + NewSide(rest)
  {
    assert ([op] + rest)[1..] == rest;
  }

  lemma WitnessLeads(a: seq<string>, h: Hunk)
    requires h.ops != [] && h.oldStart == h.newStart == 0 && OldSide(h.ops) == a && NewSide(h.ops) == []
    ensures Leads(a, [], [h])
  {
    assert a[..|a|] == a && a[0..0] == [] && a[|a|..|a|] == [];
    assert Matches(a, [], h);
    assert AgreeBefore(a, [], [h], 0);
    assert AgreeBefore(a, [], [h], 1);
  }

  lemma WitnessRows(h: Hunk, first: Op, second: Op)
    requires first == Remove("--x\n") && second == Remove("old\n")
    requires h == Hunk(0, 0, [first, second]) && |OldSide(h.ops)| == 2 && NewSide(h.ops) == []
    ensures Shown([h], "1", "2") == [Removed(1, "old")]
  {
    ShownBody([h], "1", "2");
    assert [h][1..] == [] && HunkKinds([]) == [];
    assert h.ops[1..] == [second] && [second][1..] == [] && OpKinds([]) == [];
    assert StripNewlines("old\n") == "old" by {
      assert "old\n"[..3] == "old";
    }
    var kinds := [HunkKind(h), OpKind(first), OpKind(second)];
    assert OpKinds([second]) == [OpKind(second)];
    assert HunkKinds([h]) == kinds;
    WitnessBody(kinds, HunkKind(h), OpKind(first));
  }

  lemma WitnessBody(kinds: seq<Kind>, header: Kind, masked: Kind)
    requires kinds == [header, masked, Minus("old")]
    requires header.HunkLine? && header.oldNo == Some(1) && header.newNo == Some(0) && masked.FileLine?
    ensures Body(Rows(kinds, Numbers(0, 0))) == [Removed(1, "old")]
  {
    var at := Numbers(1, 0);
    var last := [Minus("old")];
    assert last[1..] == [] && kinds[1..] == [masked] + last && kinds[1..][1..] == last;
    assert Rows([], Numbers(2, 0)) == [];
    assert Rows(last, at) == [Removed(1, "old")];
    RowsCons(masked, last, at);
    RowsCons(header, [masked] + last, Numbers(0, 0));
    assert kinds == [header] + ([masked] + last);
    var rows, below := Rows(kinds, Numbers(0, 0)), Rows([masked] + last, at);
    assert rows[1..] == below && below[1..] == Rows(last, at) && Rows(last, at)[1..] == [];
    assert Body(Rows(last, at)) == [Removed(1, "old")];
  }
}
