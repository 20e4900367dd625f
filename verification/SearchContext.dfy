/**
 * The context blocks of a configuration search (`_extract_context` in src/kiroku/web/routes/search.py).
 */
module SearchContext {
  import opened Basics
  import opened Lines

  // ----- what a line must hold -----

  predicate Contains(line: string, part: string) {
    part <= line || (line != "" && Contains(line[1..], part))
  }

  /** The search: a compiled regular expression if there is one, else terms compared in lower case. */
  datatype Query = Query(terms: seq<string>, regex: Option<string -> bool>, lower: string -> string)
  {
    predicate IsEmpty() {
      terms == [] && regex.None?
    }

    predicate IsHit(line: string) {
      if regex.Some? then regex.value(line)
      else exists t | t in terms :: Contains(lower(line), lower(t))
    }
  }

  /** The part stands in the line at offset k. */
  predicate StandsAt(line: string, part: string, k: nat) {
    k + |part| <= |line| && line[k..k + |part|] == part
  }

  ghost predicate OccursIn(line: string, part: string) {
    exists k: nat :: StandsAt(line, part, k)
  }

  lemma {:induction false} ContainsIs(line: string, part: string)
    ensures Contains(line, part) <==> OccursIn(line, part)
  {
    assert part <= line <==> StandsAt(line, part, 0);
    if line != "" {
      ContainsIs(line[1..], part);
      forall k: nat ensures StandsAt(line[1..], part, k) <==> StandsAt(line, part, k + 1) {}
      if OccursIn(line, part) {
        var k: nat :| StandsAt(line, part, k);
        assert k > 0 ==> StandsAt(line[1..], part, k - 1);
      }
    }
  }

  /** Without a regular expression a line is a hit when some term, in lower case, occurs in it, in lower case; with one
      the terms do not matter. */
  lemma HitIs(query: Query, line: string)
    ensures query.regex.Some? ==> (query.IsHit(line) <==> query.regex.value(line))
    ensures query.regex.None? ==> (query.IsHit(line) <==>
      exists t :: t in query.terms && OccursIn(query.lower(line), query.lower(t)))
  {
    forall t ensures Contains(query.lower(line), query.lower(t)) <==> OccursIn(query.lower(line), query.lower(t)) {
      ContainsIs(query.lower(line), query.lower(t));
    }
  }

  // ----- what the blocks must be -----

  datatype Line = Line(num: int, text: string, hit: bool)
  datatype Block = Block(startLine: int, lines: seq<Line>)

  function Hits(lines: seq<string>, query: Query): seq<bool> {
    seq(|lines|, i requires 0 <= i < |lines| => query.IsHit(lines[i]))
  }

  /** Some hit among the first n lines lies at most `context` lines from line j. */
  ghost predicate Near(hits: seq<bool>, context: int, n: nat, j: int)
    requires n <= |hits|
  {
    exists i :: 0 <= i < n && hits[i] && i - context <= j <= i + context
  }

  /** A block is a run of consecutive lines, told truthfully, with at least one hit. */
  ghost predicate Truthful(lines: seq<string>, hits: seq<bool>, block: Block)
    requires |hits| == |lines|
  {
    && block.lines != []
    && 1 <= block.startLine && block.startLine + |block.lines| - 1 <= |lines|
    && (forall k :: 0 <= k < |block.lines| ==>
          var j := block.startLine + k - 1; block.lines[k] == Line(j + 1, lines[j], hits[j]))
    && (exists k :: 0 <= k < |block.lines| && block.lines[k].hit)
  }

  /** Line j (counting from 0) is shown in the block. */
  predicate Shows(block: Block, j: int) {
    block.startLine <= j + 1 < block.startLine + |block.lines|
  }

  /** A later block starts beyond the line that follows an earlier one. */
  ghost predicate Apart(blocks: seq<Block>) {
    forall b, c :: 0 <= b < c < |blocks| ==> blocks[b].startLine + |blocks[b].lines| < blocks[c].startLine
  }

  function Count(flags: seq<bool>): nat {
    if flags == [] then 0 else Count(flags[..|flags| - 1]) + (if flags[|flags| - 1] then 1 else 0)
  }

  function Flags(block: Block): seq<bool> {
    seq(|block.lines|, k requires 0 <= k < |block.lines| => block.lines[k].hit)
  }

  /** How many lines are flagged as hits, over all blocks. */
  function CountShown(blocks: seq<Block>): nat {
    if blocks == [] then 0 else CountShown(blocks[..|blocks| - 1]) + Count(Flags(blocks[|blocks| - 1]))
  }

  // ----- line numbers, as the code first gathers them -----

  predicate Between(lo: int, j: int, hi: int) {
    lo <= j < hi
  }

  /** `sorted(numbers)`, for numbers below n. */
  function Sorted(numbers: set<int>, n: nat): seq<int> {
    if n == 0 then [] else Sorted(numbers, n - 1) + (if n - 1 in numbers then [n - 1] else [])
  }

  lemma {:induction false} SortedAscends(numbers: set<int>, n: nat)
    ensures var s := Sorted(numbers, n);
      && (forall i, j :: 0 <= i < j < |s| ==> s[i] < s[j])
      && (forall x :: x in s <==> 0 <= x < n && x in numbers)
  {
    if n != 0 {
      SortedAscends(numbers, n - 1);
      var front := Sorted(numbers, n - 1);
      assert forall i :: 0 <= i < |front| ==> front[i] in front;
    }
  }

  function Flat(runs: seq<seq<int>>): seq<int> {
    if runs == [] then [] else Flat(runs[..|runs| - 1]) + runs[|runs| - 1]
  }

  ghost predicate Run(run: seq<int>) {
    run != [] && forall k :: 0 <= k < |run| ==> run[k] == run[0] + k
  }

  predicate InRun(run: seq<int>, x: int) {
    run != [] && run[0] <= x < run[0] + |run|
  }

  /** The runs are consecutive inside and apart from one another. */
  ghost predicate Runs(runs: seq<seq<int>>) {
    && (forall b :: 0 <= b < |runs| ==> Run(runs[b]))
    && (forall b, c :: 0 <= b < c < |runs| ==> runs[b][0] + |runs[b]| < runs[c][0])
  }

  /** The loop that splits ascending numbers into maximal runs. */
  method SplitRuns(order: seq<int>) returns (runs: seq<seq<int>>)
    requires forall i, j :: 0 <= i < j < |order| ==> order[i] < order[j]
    ensures Runs(runs) && Flat(runs) == order
  {
    runs := [];
    var run: seq<int> := [];
    for k := 0 to |order|
      invariant Splitting(runs, run, order[..k]) == true
    {
      var i := order[k];
      assert order[..k + 1] == order[..k] + [i];
      SplitStep(runs, run, order[..k], i);
      if run != [] && i > run[|run| - 1] + 1 {
        runs := runs + [run];
        run := [];
      }
      run := run + [i];
    }
    FlatStep(runs, run);
    if run != [] {
      runs := runs + [run];
    }
    assert order[..|order|] == order;
  }

  /** The loop's state once the numbers `done` are taken: finished runs, and the one being built. */
  ghost predicate Splitting(runs: seq<seq<int>>, run: seq<int>, done: seq<int>) {
    && (run == [] ==> runs == [] && done == [])
    && (run != [] ==> done != [] && run[|run| - 1] == done[|done| - 1] && Runs(runs + [run]))
    && Flat(runs) + run == done
  }

  lemma FlatStep(runs: seq<seq<int>>, run: seq<int>)
    ensures Flat(runs + [run]) == Flat(runs) + run
  {
    assert (runs + [run])[..|runs|] == runs;
  }

  lemma SplitStep(runs: seq<seq<int>>, run: seq<int>, done: seq<int>, i: int)
    requires Splitting(runs, run, done) && (done != [] ==> done[|done| - 1] < i)
    ensures if run != [] && i > run[|run| - 1] + 1 then Splitting(runs + [run], [i], done + [i]) == true
      else Splitting(runs, run + [i], done + [i]) == true
  {
    if run != [] && i > run[|run| - 1] + 1 {
      FlatStep(runs, run);
      ExtendRun(runs + [run], [], i);
      assert [] + [i] == [i];
    } else {
      ExtendRun(runs, run, i);
      assert (Flat(runs) + run) + [i] == Flat(runs) + (run + [i]);
    }
  }

  lemma ExtendRun(runs: seq<seq<int>>, run: seq<int>, i: int)
    requires run == [] ==> Runs(runs) && (runs != [] ==> var last := runs[|runs| - 1]; last[0] + |last| < i)
    requires run != [] ==> Runs(runs + [run]) && i == run[|run| - 1] + 1
    ensures Runs(runs + [run + [i]])
  {
    var all, all' := runs + [run], runs + [run + [i]];
    forall b | 0 <= b < |all'| ensures Run(all'[b]) {
      if run != [] || b < |runs| {
        assert Run(all[b]);
      }
    }
    forall b, c | 0 <= b < c < |all'| ensures all'[b][0] + |all'[b]| < all'[c][0] {
      assert all'[b] == all[b] == runs[b];
      if run != [] {
        assert all[b][0] + |all[b]| < all[c][0];
      } else if c == |runs| && b < c - 1 {
        assert runs[b][0] + |runs[b]| < runs[c - 1][0];
        assert Run(runs[c - 1]);
      }
    }
  }

  // ----- numbers shown in runs -----

  lemma {:induction false} FlatShows(runs: seq<seq<int>>, x: int)
    requires forall b :: 0 <= b < |runs| ==> Run(runs[b])
    ensures x in Flat(runs) <==> exists b :: 0 <= b < |runs| && InRun(runs[b], x)
  {
    if runs != [] {
      var front, last := runs[..|runs| - 1], runs[|runs| - 1];
      FlatShows(front, x);
      assert Run(last);
      if last[0] <= x < last[0] + |last| {
        assert last[x - last[0]] == x;
      }
      forall b | 0 <= b < |runs| ensures runs[b] == if b < |front| then front[b] else last {}
    }
  }

  /** A run cannot stop between two neighbours that are both shown. */
  lemma RunsGoOn(runs: seq<seq<int>>, b: nat, x: int, y: int)
    requires Runs(runs) && b < |runs| && InRun(runs[b], x)
    requires y == x + 1 || y == x - 1
    requires y in Flat(runs)
    ensures InRun(runs[b], y)
  {
    FlatShows(runs, y);
    var c :| 0 <= c < |runs| && InRun(runs[c], y);
  }

  lemma {:induction false} RunsReach(runs: seq<seq<int>>, b: nat, x: int, y: int)
    requires Runs(runs) && b < |runs| && InRun(runs[b], x)
    requires forall z | (x <= z <= y || y <= z <= x) :: z in Flat(runs)
    ensures InRun(runs[b], y)
    decreases if x < y then y - x else x - y
  {
    if x != y {
      var z := if x < y then x + 1 else x - 1;
      RunsGoOn(runs, b, x, z);
      RunsReach(runs, b, z, y);
    }
  }

  // ----- counting -----

  ghost predicate Within(numbers: seq<int>, n: nat) {
    forall k :: 0 <= k < |numbers| ==> 0 <= numbers[k] < n
  }

  /** The flags of the numbered lines. */
  function Select(hits: seq<bool>, numbers: seq<int>): seq<bool>
    requires Within(numbers, |hits|)
  {
    seq(|numbers|, k requires 0 <= k < |numbers| => hits[numbers[k]])
  }

  lemma {:induction false} CountAppend(flags: seq<bool>, more: seq<bool>)
    ensures Count(flags + more) == Count(flags) + Count(more)
  {
    if more == [] {
      assert flags + more == flags;
    } else {
      assert (flags + more)[..|flags + more| - 1] == flags + more[..|more| - 1];
      CountAppend(flags, more[..|more| - 1]);
    }
  }

  /** Numbers that leave out no hit select every hit. */
  lemma {:induction false} CountSorted(hits: seq<bool>, numbers: set<int>, n: nat)
    requires n <= |hits| && Within(Sorted(numbers, n), |hits|)
    requires forall j | 0 <= j < n && hits[j] :: j in numbers
    ensures Count(Select(hits, Sorted(numbers, n))) == Count(hits[..n])
  {
    if n != 0 {
      var front, last := Sorted(numbers, n - 1), if n - 1 in numbers then [n - 1] else [];
      forall k | 0 <= k < |front| ensures 0 <= front[k] < |hits| {
        assert (front + last)[k] == front[k];
      }
      CountSorted(hits, numbers, n - 1);
      assert hits[..n] == hits[..n - 1] + [hits[n - 1]];
      CountAppend(hits[..n - 1], [hits[n - 1]]);
      CountOne(hits[n - 1]);
      CountSelected(hits, front, last);
      if last != [] {
        assert Select(hits, last) == [hits[n - 1]];
      }
    }
  }

  lemma CountSelected(hits: seq<bool>, front: seq<int>, last: seq<int>)
    requires Within(front, |hits|) && Within(last, |hits|) && Within(front + last, |hits|)
    ensures Count(Select(hits, front + last)) == Count(Select(hits, front)) + Count(Select(hits, last))
  {
    assert Select(hits, front + last) == Select(hits, front) + Select(hits, last);
    CountAppend(Select(hits, front), Select(hits, last));
  }

  lemma CountOne(flag: bool)
    ensures Count([flag]) == if flag then 1 else 0
  {
    assert [flag][..0] == [];
  }

  // ----- the function of the source -----

  /** The lines of a run as the caller sees them. */
  function Present(lines: seq<string>, hits: seq<bool>, run: seq<int>): Block
    requires |hits| == |lines| && run != [] && Within(run, |lines|)
  {
    Block(run[0] + 1, seq(|run|, k requires 0 <= k < |run| => Line(run[k] + 1, lines[run[k]], hits[run[k]])))
  }

  /** The blocks are the runs, presented. */
  ghost predicate Presented(lines: seq<string>, hits: seq<bool>, runs: seq<seq<int>>, blocks: seq<Block>)
    requires |hits| == |lines|
  {
    && |blocks| == |runs|
    && forall c :: 0 <= c < |runs| ==>
      runs[c] != [] && Within(runs[c], |lines|) && blocks[c] == Present(lines, hits, runs[c])
  }

  /** Everything the blocks owe to the caller. */
  ghost predicate Exact(lines: seq<string>, hits: seq<bool>, context: int, blocks: seq<Block>)
    requires |hits| == |lines|
  {
    && (forall b :: 0 <= b < |blocks| ==> Truthful(lines, hits, blocks[b]))
    && Apart(blocks)
    && (forall j :: 0 <= j < |lines| ==>
          (Near(hits, context, |hits|, j) <==> exists b :: 0 <= b < |blocks| && Shows(blocks[b], j)))
    && (context >= 0 ==> CountShown(blocks) == Count(hits))
  }

  /** Nothing without a text or a search; else exactly the lines near a hit, in maximal runs. A negative
      `context` has no line near a hit, so it gives no block. */
  method ExtractContext(content: string, query: Query, context: int) returns (blocks: seq<Block>)
    ensures content == "" || query.IsEmpty() ==> blocks == []
    ensures content != "" && !query.IsEmpty() ==>
      var lines := SplitLines(content); Exact(lines, Hits(lines, query), context, blocks)
  {
    blocks := [];
    if content == "" || query.IsEmpty() {
      return;
    }
    var lines := SplitLines(content);
    ghost var hits := Hits(lines, query);
    var numbers: set<int> := {};
    for i := 0 to |lines|
      invariant forall j :: j in numbers <==> 0 <= j < |lines| && Near(hits, context, i, j)
    {
      ghost var before := numbers;
      if query.IsHit(lines[i]) {
        var lo := if i - context < 0 then 0 else i - context;
        var hi := if |lines| < i + context + 1 then |lines| else i + context + 1;
        numbers := numbers + set j | lo <= j < hi && Between(lo, j, hi);
      }
      NearStep(hits, context, i, before, numbers);
    }
    SortedAscends(numbers, |lines|);
    var runs := SplitRuns(Sorted(numbers, |lines|));
    for b := 0 to |runs|
      invariant Presented(lines, hits, runs[..b], blocks)
    {
      RunInside(runs, b, |lines|);
      blocks := blocks + [Block(runs[b][0] + 1, seq(|runs[b]|, k requires 0 <= k < |runs[b]| =>
                            Line(runs[b][k] + 1, lines[runs[b][k]], query.IsHit(lines[runs[b][k]]))))];
      assert blocks[b] == Present(lines, hits, runs[b]);
    }
    assert runs[..|runs|] == runs;
    BlocksExact(lines, hits, context, numbers, runs, blocks);
  }

  lemma NearStep(hits: seq<bool>, context: int, i: nat, before: set<int>, after: set<int>)
    requires i < |hits|
    requires forall j :: j in before <==> 0 <= j < |hits| && Near(hits, context, i, j)
    requires forall j :: j in after <==>
      j in before || (hits[i] && 0 <= j < |hits| && i - context <= j <= i + context)
    ensures forall j :: j in after <==> 0 <= j < |hits| && Near(hits, context, i + 1, j)
  {
  }

  lemma RunInside(runs: seq<seq<int>>, b: nat, n: nat)
    requires Runs(runs) && b < |runs| && forall j | j in Flat(runs) :: 0 <= j < n
    ensures Run(runs[b]) && Within(runs[b], n)
  {
    assert Run(runs[b]);
    forall k | 0 <= k < |runs[b]| ensures 0 <= runs[b][k] < n {
      FlatShows(runs, runs[b][k]);
    }
  }

  /** The numbers gathered are those near a hit. */
  ghost predicate Gathered(hits: seq<bool>, context: int, shown: seq<int>) {
    forall j :: j in shown <==> 0 <= j < |hits| && Near(hits, context, |hits|, j)
  }

  lemma BlocksExact(
    lines: seq<string>, hits: seq<bool>, context: int, numbers: set<int>, runs: seq<seq<int>>, blocks: seq<Block>)
    requires |hits| == |lines| && Presented(lines, hits, runs, blocks) && Runs(runs)
    requires Flat(runs) == Sorted(numbers, |lines|)
    requires forall j :: j in numbers <==> 0 <= j < |hits| && Near(hits, context, |hits|, j)
    ensures Exact(lines, hits, context, blocks)
  {
    SortedAscends(numbers, |lines|);
    assert Gathered(hits, context, Flat(runs));
    BlocksTruthful(lines, hits, context, runs, blocks);
    BlocksApart(lines, hits, runs, blocks);
    forall j | 0 <= j < |lines|
      ensures Near(hits, context, |hits|, j) <==> exists b :: 0 <= b < |blocks| && Shows(blocks[b], j)
    {
      NearShown(lines, hits, context, runs, blocks, j);
    }
    if context >= 0 {
      AllHitsShown(lines, hits, context, numbers, runs, blocks);
    }
  }

  lemma BlocksTruthful(lines: seq<string>, hits: seq<bool>, context: int, runs: seq<seq<int>>, blocks: seq<Block>)
    requires |hits| == |lines| && Presented(lines, hits, runs, blocks) && Runs(runs)
    requires Gathered(hits, context, Flat(runs))
    ensures forall b :: 0 <= b < |blocks| ==> Truthful(lines, hits, blocks[b])
  {
    forall c | 0 <= c < |blocks| ensures Truthful(lines, hits, blocks[c]) == true {
      RunTruthful(lines, hits, context, runs, c);
    }
  }

  lemma AllHitsShown(
    lines: seq<string>, hits: seq<bool>, context: nat, numbers: set<int>, runs: seq<seq<int>>, blocks: seq<Block>)
    requires |hits| == |lines| && Presented(lines, hits, runs, blocks) && Flat(runs) == Sorted(numbers, |lines|)
    requires forall j :: j in numbers <==> 0 <= j < |hits| && Near(hits, context, |hits|, j)
    ensures CountShown(blocks) == Count(hits)
  {
    CountBlocks(lines, hits, runs, blocks);
    forall j | 0 <= j < |hits| && hits[j] ensures j in numbers {
      assert Near(hits, context, |hits|, j);
    }
    CountSorted(hits, numbers, |lines|);
    assert hits[..|lines|] == hits;
  }

  lemma RunHit(hits: seq<bool>, context: int, runs: seq<seq<int>>, c: nat) returns (h: int)
    requires Runs(runs) && c < |runs| && Gathered(hits, context, Flat(runs))
    ensures 0 <= h < |hits| && hits[h] && InRun(runs[c], h)
  {
    var x := runs[c][0];
    assert Run(runs[c]);
    FlatShows(runs, x);
    assert Near(hits, context, |hits|, x);
    h :| 0 <= h < |hits| && hits[h] && h - context <= x <= h + context;
    forall z | x <= z <= h || h <= z <= x ensures z in Flat(runs) {
      assert Near(hits, context, |hits|, z);
    }
    RunsReach(runs, c, x, h);
  }

  lemma RunTruthful(lines: seq<string>, hits: seq<bool>, context: int, runs: seq<seq<int>>, c: nat)
    requires |hits| == |lines| && Runs(runs) && c < |runs| && Gathered(hits, context, Flat(runs))
    ensures runs[c] != [] && Within(runs[c], |lines|) && Truthful(lines, hits, Present(lines, hits, runs[c])) == true
  {
    RunInside(runs, c, |lines|);
    var h := RunHit(hits, context, runs, c);
    PresentTruthful(lines, hits, runs[c], h);
  }

  lemma PresentTruthful(lines: seq<string>, hits: seq<bool>, run: seq<int>, h: int)
    requires |hits| == |lines| && Run(run) && Within(run, |lines|) && InRun(run, h) && 0 <= h < |hits| && hits[h]
    ensures Truthful(lines, hits, Present(lines, hits, run))
  {
    var block := Present(lines, hits, run);
    assert run[h - run[0]] == h;
    assert block.lines[h - run[0]].hit;
    assert run[|run| - 1] == run[0] + |run| - 1;
  }

  lemma BlocksApart(lines: seq<string>, hits: seq<bool>, runs: seq<seq<int>>, blocks: seq<Block>)
    requires |hits| == |lines| && Runs(runs) && Presented(lines, hits, runs, blocks)
    ensures Apart(blocks)
  {
  }

  lemma NearShown(lines: seq<string>, hits: seq<bool>, context: int, runs: seq<seq<int>>, blocks: seq<Block>, j: int)
    requires |hits| == |lines| && Runs(runs) && Presented(lines, hits, runs, blocks) && 0 <= j < |lines|
    requires Gathered(hits, context, Flat(runs))
    ensures Near(hits, context, |hits|, j) <==> exists b :: 0 <= b < |blocks| && Shows(blocks[b], j)
  {
    FlatShows(runs, j);
    forall b | 0 <= b < |blocks| ensures Shows(blocks[b], j) <==> InRun(runs[b], j) {}
    if Near(hits, context, |hits|, j) {
      var b :| 0 <= b < |runs| && InRun(runs[b], j);
      assert Shows(blocks[b], j);
    }
  }

  lemma {:induction false} CountBlocks(lines: seq<string>, hits: seq<bool>, runs: seq<seq<int>>, blocks: seq<Block>)
    requires |hits| == |lines| && Presented(lines, hits, runs, blocks)
    ensures Within(Flat(runs), |hits|)
    ensures CountShown(blocks) == Count(Select(hits, Flat(runs)))
  {
    if runs != [] {
      var n := |runs| - 1;
      assert Presented(lines, hits, runs[..n], blocks[..n]);
      CountBlocks(lines, hits, runs[..n], blocks[..n]);
      assert Flags(blocks[n]) == Select(hits, runs[n]);
      assert Select(hits, Flat(runs)) == Select(hits, Flat(runs[..n])) + Select(hits, runs[n]);
      CountAppend(Select(hits, Flat(runs[..n])), Select(hits, runs[n]));
    }
  }
}
