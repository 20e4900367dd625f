/**
 * What the worker makes of a device's raw output (`_normalize_config` and `_strip_echo` in
 * src/kiroku/worker/scrapli_runner.py), and why a second capture of the same configuration stages no change.
 */
module Capture {
  import opened Basics
  import opened Lines
  import opened GitStore

  // ----- terminal control sequences -----

  predicate IsFinal(c: char) { '@' <= c <= '~' }

  /** How many characters at the head of s lie between lo and hi. */
  function Span(s: string, lo: char, hi: char): (n: nat)
    ensures n <= |s|
  {
    if s != "" && lo <= s[0] <= hi then 1 + Span(s[1..], lo, hi) else 0
  }

  /** The length of the control sequence at the head of s, or 0: ESC and one of "@" to "_", or ESC "[",
      parameters "0" to "?", intermediates " " to "/" and a final "@" to "~". */
  function SequenceLength(s: string): (n: nat)
    ensures n <= |s|
  {
    if |s| < 2 || s[0] != '\U{1B}' then 0
    else if s[1] != '[' then (if '@' <= s[1] <= '_' then 2 else 0)
    else
      var params := 2 + Span(s[2..], '0', '?');
      var inter := params + Span(s[params..], ' ', '/');
      if inter < |s| && IsFinal(s[inter]) then inter + 1 else 0
  }

  /** `_ANSI_ESCAPE.sub("", s)`: one pass from the left. */
  function StripAnsi(s: string): string
    decreases |s|
  {
    if s == "" then ""
    else if SequenceLength(s) > 0 then StripAnsi(s[SequenceLength(s)..])
    else [s[0]] + StripAnsi(s[1..])
  }

  // ----- which sequences these are -----

  /** ESC "[", parameters up to m, intermediates up to the last character, and a final one. */
  ghost predicate IsControl(s: string, m: nat) {
    && 2 <= m < |s| && s[0] == '\U{1B}' && s[1] == '['
    && (forall i | 2 <= i < m :: '0' <= s[i] <= '?')
    && (forall i | m <= i < |s| - 1 :: ' ' <= s[i] <= '/')
    && '@' <= s[|s| - 1] <= '~'
  }

  /** A whole control sequence: ESC with one of "@" to "Z" or "\" to "_", or ESC "[" with what belongs to it. */
  ghost predicate IsSequence(s: string) {
    || (|s| == 2 && s[0] == '\U{1B}' && ('@' <= s[1] <= 'Z' || '\\' <= s[1] <= '_'))
    || exists m :: IsControl(s, m)
  }

  lemma {:induction false} SpanIs(s: string, lo: char, hi: char)
    ensures var n := Span(s, lo, hi);
      && (forall i | 0 <= i < n :: lo <= s[i] <= hi)
      && (n < |s| ==> !(lo <= s[n] <= hi))
  {
    if s != "" && lo <= s[0] <= hi {
      SpanIs(s[1..], lo, hi);
    }
  }

  lemma {:induction false} SpanUnique(s: string, lo: char, hi: char, n: nat)
    requires n < |s| && !(lo <= s[n] <= hi) && forall i | 0 <= i < n :: lo <= s[i] <= hi
    ensures Span(s, lo, hi) == n
  {
    if n > 0 {
      SpanUnique(s[1..], lo, hi, n - 1);
    }
  }

  /** Where parameters and intermediates end is decided by the characters. */
  lemma ControlEnds(s: string, n: nat, m: nat)
    requires n <= |s| && IsControl(s[..n], m)
    ensures SequenceLength(s) == n
  {
    var t := s[..n];
    assert forall i :: 0 <= i < n ==> t[i] == s[i];
    SpanUnique(s[2..], '0', '?', m - 2);
    SpanUnique(s[m..], ' ', '/', n - 1 - m);
  }

  lemma ControlFound(s: string)
    requires |s| >= 2 && s[0] == '\U{1B}' && s[1] == '[' && SequenceLength(s) > 0
    ensures IsControl(s[..SequenceLength(s)], 2 + Span(s[2..], '0', '?'))
  {
    var params := 2 + Span(s[2..], '0', '?');
    var inter := params + Span(s[params..], ' ', '/');
    SpanIs(s[2..], '0', '?');
    SpanIs(s[params..], ' ', '/');
    var t := s[..inter + 1];
    forall i | 2 <= i < params ensures '0' <= t[i] <= '?' {
      assert t[i] == s[2..][i - 2];
    }
    forall i | params <= i < inter ensures ' ' <= t[i] <= '/' {
      assert t[i] == s[params..][i - params];
    }
  }

  /** The measured head is a control sequence, and no other head is one. */
  lemma SequenceIs(s: string)
    ensures SequenceLength(s) > 0 ==> IsSequence(s[..SequenceLength(s)])
    ensures forall n: nat | n <= |s| && IsSequence(s[..n]) :: n == SequenceLength(s)
  {
    if SequenceLength(s) > 0 && s[1] == '[' {
      ControlFound(s);
    }
    forall n: nat | n <= |s| && IsSequence(s[..n]) ensures n == SequenceLength(s) {
      SequenceMeasured(s, n);
    }
  }

  lemma SequenceMeasured(s: string, n: nat)
    requires n <= |s| && IsSequence(s[..n])
    ensures SequenceLength(s) == n
  {
    if m :| IsControl(s[..n], m) {
      ControlEnds(s, n, m);
    }
  }

  /** A sequence at the head goes; a character at which none begins stays. */
  lemma StripsSequences(s: string, n: nat)
    requires n <= |s|
    ensures IsSequence(s[..n]) ==> StripAnsi(s) == StripAnsi(s[n..])
    ensures s != "" && (forall k: nat | k <= |s| :: !IsSequence(s[..k])) ==> StripAnsi(s) == [s[0]] + StripAnsi(s[1..])
  {
    SequenceIs(s);
  }

  predicate HasSequence(s: string) {
    s != "" && (SequenceLength(s) > 0 || HasSequence(s[1..]))
  }

  // ----- the stages of _normalize_config -----

  /** `replace("\r\n", "\n")`. */
  function ReplaceCrLf(s: string): string {
    if s == "" then ""
    else if s[0] == '\r' && |s| > 1 && s[1] == '\n' then "\n" + ReplaceCrLf(s[2..])
    else [s[0]] + ReplaceCrLf(s[1..])
  }

  /** `replace("\r", "\n")`. */
  function ReplaceCr(s: string): string {
    if s == "" then "" else [if s[0] == '\r' then '\n' else s[0]] + ReplaceCr(s[1..])
  }

  function RstripAll(lines: seq<string>): seq<string> {
    seq(|lines|, i requires 0 <= i < |lines| => Rstrip(lines[i]))
  }

  function DropBlank(lines: seq<string>): seq<string> {
    if lines != [] && lines[|lines| - 1] == "" then DropBlank(lines[..|lines| - 1]) else lines
  }

  /** The lines of a text as they are kept. */
  function Canonical(text: string): seq<string> {
    DropBlank(RstripAll(SplitLines(ReplaceCr(ReplaceCrLf(text)))))
  }

  /** Everything after the control sequences are gone. */
  function LineStage(text: string): string {
    Join(Canonical(text))
  }

  function Normalize(text: string): string {
    LineStage(StripAnsi(text))
  }

  method NormalizeConfig(raw: string) returns (text: string)
    ensures text == Normalize(raw)
  {
    text := StripAnsi(raw);
    text := ReplaceCr(ReplaceCrLf(text));
    var lines := RstripAll(SplitLines(text));
    ghost var all := lines;
    while lines != [] && lines[|lines| - 1] == ""
      invariant DropBlank(lines) == DropBlank(all)
    {
      lines := lines[..|lines| - 1];
    }
    text := Join(lines);
  }

  // ----- the line stage is canonical -----

  /** Both replacements together are newline translation. */
  lemma {:induction false} ReplacesReadText(s: string)
    ensures ReplaceCr(ReplaceCrLf(s)) == ReadText(s)
    decreases |s|
  {
    if s != "" {
      var pair := s[0] == '\r' && |s| > 1 && s[1] == '\n';
      ReplacesReadText(if pair then s[2..] else s[1..]);
      var r := ReplaceCrLf(s);
      assert r[1..] == ReplaceCrLf(if pair then s[2..] else s[1..]);
    }
  }

  /** The translation changes no line: `splitlines` breaks at carriage returns too. */
  lemma {:induction false} SplitTranslated(s: string, line: string)
    ensures SplitFrom(ReadText(s), line) == SplitFrom(s, line)
    decreases |s|
  {
    if s != "" {
      if s[0] == '\r' {
        var rest := if |s| > 1 && s[1] == '\n' then s[2..] else s[1..];
        assert ReadText(s)[1..] == ReadText(rest);
        SplitTranslated(rest, "");
      } else {
        assert ReadText(s)[1..] == ReadText(s[1..]);
        SplitTranslated(s[1..], if IsBreak(s[0]) then "" else line + [s[0]]);
      }
    }
  }

  lemma CanonicalLines(text: string)
    ensures Canonical(text) == DropBlank(RstripAll(SplitLines(text)))
  {
    ReplacesReadText(text);
    SplitTranslated(text, "");
  }

  /** Lines that normalisation leaves alone. */
  ghost predicate IsCanonical(lines: seq<string>) {
    && (forall l | l in lines :: Unbroken(l) && Rstrip(l) == l)
    && (lines != [] ==> lines[|lines| - 1] != "")
  }

  lemma {:induction false} DropBlankExact(lines: seq<string>)
    ensures var r := DropBlank(lines);
      && r <= lines && (r == [] || r[|r| - 1] != "")
      && forall i :: |r| <= i < |lines| ==> lines[i] == ""
  {
    if lines != [] && lines[|lines| - 1] == "" {
      DropBlankExact(lines[..|lines| - 1]);
    }
  }

  lemma CanonicalIs(text: string)
    ensures IsCanonical(Canonical(text))
  {
    CanonicalLines(text);
    var lines := SplitLines(text);
    SplitUnbroken(text, "");
    DropBlankExact(RstripAll(lines));
    forall l | l in Canonical(text) ensures Unbroken(l) && Rstrip(l) == l {
      var i :| 0 <= i < |RstripAll(lines)| && RstripAll(lines)[i] == l;
      RstripExact(lines[i]);
      assert lines[i] in lines;
    }
  }

  lemma CanonicalKept(lines: seq<string>)
    requires IsCanonical(lines)
    ensures Canonical(Join(lines)) == lines
  {
    CanonicalLines(Join(lines));
    SplitJoin(lines);
    assert RstripAll(lines) == lines;
  }

  /** The line stage is idempotent. */
  lemma LineStageIdempotent(text: string)
    ensures LineStage(LineStage(text)) == LineStage(text)
  {
    CanonicalIs(text);
    CanonicalKept(Canonical(text));
  }

  /** The k-th line up to trailing white space; past the end every line is blank. */
  function Seen(lines: seq<string>, k: nat): string {
    if k < |lines| then Rstrip(lines[k]) else ""
  }

  /** Two texts differ in trailing white space, trailing blank lines and kinds of line ends at most. */
  ghost predicate Alike(a: string, b: string) {
    forall k: nat :: Seen(SplitLines(ReadText(a)), k) == Seen(SplitLines(ReadText(b)), k)
  }

  lemma DroppedSeen(lines: seq<string>, k: nat)
    ensures var r := DropBlank(RstripAll(lines)); Seen(lines, k) == if k < |r| then r[k] else ""
  {
    var kept := RstripAll(lines);
    DropBlankExact(kept);
    if k < |lines| {
      assert kept[k] == Rstrip(lines[k]);
    }
  }

  /** Two texts normalise equal exactly when they are alike. */
  lemma LineStageCanonical(a: string, b: string)
    ensures LineStage(a) == LineStage(b) <==> Alike(a, b)
  {
    var x, y := SplitLines(ReadText(a)), SplitLines(ReadText(b));
    var r, s := Canonical(a), Canonical(b);
    ReplacesReadText(a);
    ReplacesReadText(b);
    CanonicalIs(a);
    CanonicalIs(b);
    if LineStage(a) == LineStage(b) {
      CanonicalKept(r);
      CanonicalKept(s);
      forall k: nat ensures Seen(x, k) == Seen(y, k) {
        DroppedSeen(x, k);
        DroppedSeen(y, k);
      }
    }
    if Alike(a, b) {
      SeenDecides(x, y, r, s);
    }
  }

  lemma SeenDecides(x: seq<string>, y: seq<string>, r: seq<string>, s: seq<string>)
    requires IsCanonical(r) && r == DropBlank(RstripAll(x))
    requires IsCanonical(s) && s == DropBlank(RstripAll(y))
    requires forall k: nat :: Seen(x, k) == Seen(y, k)
    ensures r == s
  {
    if |r| != |s| {
      var k := (if |r| < |s| then |s| else |r|) - 1;
      DroppedSeen(x, k);
      DroppedSeen(y, k);
      assert false;
    }
    forall k | 0 <= k < |r| ensures r[k] == s[k] {
      DroppedSeen(x, k);
      DroppedSeen(y, k);
    }
  }

  // ----- the whole function -----

  lemma {:induction false} StripShortens(s: string)
    ensures |StripAnsi(s)| <= |s|
    ensures HasSequence(s) ==> |StripAnsi(s)| < |s|
    ensures !HasSequence(s) ==> StripAnsi(s) == s
    decreases |s|
  {
    if s != "" {
      StripShortens(if SequenceLength(s) > 0 then s[SequenceLength(s)..] else s[1..]);
    }
  }

  /** Characters that occur in no control sequence. */
  predicate Foreign(c: char) {
    c < '\U{1B}' || '\U{1B}' < c < ' ' || '~' < c
  }

  lemma {:induction false} SpanStops(x: string, c: char, y: string, lo: char, hi: char)
    requires Foreign(c) && ' ' <= lo && hi <= '~'
    ensures Span(x + [c] + y, lo, hi) == Span(x, lo, hi)
  {
    if x == "" {
      assert (x + [c] + y)[0] == c;
    } else {
      assert (x + [c] + y)[1..] == x[1..] + [c] + y;
      SpanStops(x[1..], c, y, lo, hi);
    }
  }

  /** A foreign character ends whatever may have begun before it. */
  lemma SequenceStops(x: string, c: char, y: string)
    requires Foreign(c) && x != ""
    ensures SequenceLength(x + [c] + y) == SequenceLength(x)
  {
    var s := x + [c] + y;
    if |x| >= 2 && x[0] == '\U{1B}' && x[1] == '[' {
      assert s[2..] == x[2..] + [c] + y;
      SpanStops(x[2..], c, y, '0', '?');
      var params := 2 + Span(x[2..], '0', '?');
      assert s[params..] == x[params..] + [c] + y;
      SpanStops(x[params..], c, y, ' ', '/');
    }
  }

  lemma {:induction false} HasSequenceParts(x: string, c: char, y: string)
    requires Foreign(c)
    ensures HasSequence(x + [c] + y) <==> HasSequence(x) || HasSequence(y)
  {
    var s := x + [c] + y;
    if x == "" {
      assert s[1..] == y;
      assert SequenceLength(s) == 0;
    } else {
      assert s[1..] == x[1..] + [c] + y;
      SequenceStops(x, c, y);
      HasSequenceParts(x[1..], c, y);
    }
  }

  lemma {:induction false} SpanBlank(x: string)
    ensures Span(x + " ", '0', '?') == Span(x, '0', '?')
    ensures Span(x + " ", ' ', '/') == Span(x, ' ', '/') + (if Span(x, ' ', '/') == |x| then 1 else 0)
  {
    if x != "" {
      assert (x + " ")[1..] == x[1..] + " ";
      SpanBlank(x[1..]);
    }
  }

  lemma SequenceBlank(x: string)
    requires x != ""
    ensures SequenceLength(x + " ") == SequenceLength(x)
  {
    var s := x + " ";
    if |x| >= 2 && x[0] == '\U{1B}' && x[1] == '[' {
      assert s[2..] == x[2..] + " ";
      SpanBlank(x[2..]);
      var params := 2 + Span(x[2..], '0', '?');
      assert s[params..] == x[params..] + " ";
      SpanBlank(x[params..]);
    }
  }

  lemma {:induction false} HasSequenceBlank(x: string)
    ensures HasSequence(x + " ") <==> HasSequence(x)
  {
    var s := x + " ";
    if x == "" {
      assert s[1..] == "" && SequenceLength(s) == 0;
    } else {
      assert s[1..] == x[1..] + " ";
      SequenceBlank(x);
      HasSequenceBlank(x[1..]);
    }
  }

  /** White space at the end is part of no control sequence. */
  lemma {:induction false} HasSequenceRstrip(s: string)
    ensures HasSequence(Rstrip(s)) <==> HasSequence(s)
  {
    if s != "" && IsSpace(s[|s| - 1]) {
      var x, c := s[..|s| - 1], s[|s| - 1];
      HasSequenceRstrip(x);
      if c == ' ' {
        assert s == x + " ";
        HasSequenceBlank(x);
      } else {
        assert s == x + [c] + "";
        HasSequenceParts(x, c, "");
      }
    }
  }

  ghost predicate AnySequence(lines: seq<string>) {
    exists i :: 0 <= i < |lines| && HasSequence(lines[i])
  }

  lemma AnyCons(line: string, lines: seq<string>)
    ensures AnySequence([line] + lines) <==> HasSequence(line) || AnySequence(lines)
  {
    var all := [line] + lines;
    assert all[0] == line;
    forall i | 0 <= i < |lines| ensures all[i + 1] == lines[i] {}
    if AnySequence(all) {
      var i :| 0 <= i < |all| && HasSequence(all[i]);
      assert i > 0 ==> HasSequence(lines[i - 1]);
    }
    if AnySequence(lines) {
      var i :| 0 <= i < |lines| && HasSequence(lines[i]);
      assert HasSequence(all[i + 1]);
    }
  }

  lemma {:induction false} SplitSequences(s: string, line: string)
    ensures AnySequence(SplitFrom(s, line)) <==> HasSequence(line + s)
    decreases |s|
  {
    if s == "" {
      assert line + s == line;
      AnyCons(line, []);
      assert !AnySequence([]);
    } else if IsBreak(s[0]) {
      var pair := s[0] == '\r' && |s| > 1 && s[1] == '\n';
      var rest := if pair then s[2..] else s[1..];
      SplitSequences(rest, "");
      assert "" + rest == rest;
      AnyCons(line, SplitFrom(rest, ""));
      BreakSequences(s, line, pair);
    } else {
      assert line + s == line + [s[0]] + s[1..];
      SplitSequences(s[1..], line + [s[0]]);
    }
  }

  lemma BreakSequences(s: string, line: string, pair: bool)
    requires s != "" && IsBreak(s[0]) && (pair ==> s[0] == '\r' && |s| > 1 && s[1] == '\n')
    ensures HasSequence(line + s) <==> HasSequence(line) || HasSequence(if pair then s[2..] else s[1..])
  {
    assert line + s == line + [s[0]] + s[1..];
    HasSequenceParts(line, s[0], s[1..]);
    if pair {
      assert s[1..] == "" + [s[1]] + s[2..];
      HasSequenceParts("", s[1], s[2..]);
    }
  }

  lemma {:induction false} JoinSequences(lines: seq<string>)
    ensures AnySequence(lines) <==> HasSequence(Join(lines))
  {
    if lines != [] {
      assert lines == [lines[0]] + lines[1..];
      AnyCons(lines[0], lines[1..]);
      JoinSequences(lines[1..]);
      if |lines| > 1 {
        HasSequenceParts(lines[0], '\n', Join(lines[1..]));
        assert Join(lines) == lines[0] + ['\n'] + Join(lines[1..]);
      }
    }
  }

  /** The line stage neither makes nor breaks a control sequence. */
  lemma LineStageSequences(text: string)
    ensures HasSequence(LineStage(text)) <==> HasSequence(text)
  {
    var lines := SplitLines(text);
    CanonicalLines(text);
    SplitSequences(text, "");
    assert "" + text == text;
    var kept := RstripAll(lines);
    forall i | 0 <= i < |lines| ensures HasSequence(kept[i]) <==> HasSequence(lines[i]) {
      HasSequenceRstrip(lines[i]);
    }
    DropBlankExact(kept);
    var r := DropBlank(kept);
    assert forall i :: 0 <= i < |r| ==> r[i] == kept[i];
    assert AnySequence(r) <==> AnySequence(kept) by {
      if AnySequence(kept) {
        var i :| 0 <= i < |kept| && HasSequence(kept[i]);
        assert i < |r|;
      }
      if AnySequence(r) {
        var i :| 0 <= i < |r| && HasSequence(r[i]);
        assert HasSequence(kept[i]);
      }
    }
    assert AnySequence(kept) <==> AnySequence(lines) by {
      if AnySequence(kept) {
        var i :| 0 <= i < |kept| && HasSequence(kept[i]);
        assert HasSequence(lines[i]);
      }
      if AnySequence(lines) {
        var i :| 0 <= i < |lines| && HasSequence(lines[i]);
        assert HasSequence(kept[i]);
      }
    }
    JoinSequences(r);
  }

  lemma {:induction false} JoinAlong(a: seq<string>, b: seq<string>)
    requires |a| <= |b| && forall i :: 0 <= i < |a| ==> |a[i]| <= |b[i]|
    ensures |Join(a)| <= |Join(b)|
  {
    if a != [] {
      JoinAlong(a[1..], b[1..]);
    }
  }

  lemma LineStageShortens(text: string)
    ensures |LineStage(text)| <= |text|
  {
    var lines := SplitLines(text);
    CanonicalLines(text);
    DropBlankExact(RstripAll(lines));
    forall i | 0 <= i < |lines| ensures |Rstrip(lines[i])| <= |lines[i]| {
      RstripExact(lines[i]);
    }
    JoinAlong(Canonical(text), lines);
    JoinLength(text, "");
  }

  /** Normalising a second time changes nothing exactly when removing the control sequences once left none.
      One pass can leave one: see `NestedSequence`. */
  lemma NormalizeIdempotent(text: string)
    ensures Normalize(Normalize(text)) == Normalize(text) <==> !HasSequence(StripAnsi(text))
  {
    var out := Normalize(text);
    LineStageSequences(StripAnsi(text));
    StripShortens(out);
    LineStageShortens(StripAnsi(out));
    LineStageIdempotent(StripAnsi(text));
  }

  /** In particular when no ESC is left. */
  lemma {:induction false} NoEscapeNoSequence(s: string)
    requires '\U{1B}' !in s
    ensures !HasSequence(s)
  {
    if s != "" {
      NoEscapeNoSequence(s[1..]);
    }
  }

  /** A sequence inside an unfinished one: removing it completes the outer one. */
  lemma NestedSequence()
    ensures var text := "\U{1B}\U{1B}[m[m";
      StripAnsi(text) == "\U{1B}[m" && HasSequence(StripAnsi(text))
  {
    var text := "\U{1B}\U{1B}[m[m";
    assert SequenceLength(text) == 0;
    var inner := text[1..];
    assert inner == "\U{1B}[m[m";
    assert inner[2..] == "m[m" && Span("m[m", '0', '?') == 0 && Span("m[m", ' ', '/') == 0;
    assert SequenceLength(inner) == 3;
    assert inner[3..] == "[m";
    Plain("[m");
    var left := "\U{1B}[m";
    assert left == ['\U{1B}'] + "[m";
    assert left[2..] == "m" && Span("m", '0', '?') == 0 && Span("m", ' ', '/') == 0;
    assert SequenceLength(left) == 3;
  }

  lemma Plain(s: string)
    requires '\U{1B}' !in s
    ensures StripAnsi(s) == s
  {
    NoEscapeNoSequence(s);
    StripShortens(s);
  }

  // ----- captures -----

  /** `_strip_echo`: the first line goes when it is the command. */
  function StripEcho(text: string, cmd: string): string {
    var lines := SplitLines(text);
    if lines != [] && Strip(lines[0]) == Strip(cmd) then Join(lines[1..]) else text
  }

  /** The output kept for one command. */
  function Output(raw: string, cmd: string): string {
    StripEcho(Normalize(raw), cmd)
  }

  /** The outputs of all commands, one after the other: the configuration that is backed up. */
  function ConfigText(raws: seq<string>, cmds: seq<string>): string
    requires |raws| == |cmds|
  {
    Join(Outputs(raws, cmds))
  }

  // ----- where each output stands -----

  /** How many characters the first n texts have together. */
  function Total(texts: seq<string>, n: nat): nat
    requires n <= |texts|
  {
    if n == 0 then 0 else Total(texts, n - 1) + |texts[n - 1]|
  }

  lemma {:induction false} TotalRest(texts: seq<string>, n: nat)
    requires 1 <= n <= |texts|
    ensures Total(texts, n) == |texts[0]| + Total(texts[1..], n - 1)
  {
    if n > 1 {
      TotalRest(texts, n - 1);
    }
  }

  /** The piece stands at the place, at the beginning or behind a newline. */
  ghost predicate IsPiece(whole: string, at: nat, piece: string) {
    at + |piece| <= |whole| && whole[at..at + |piece|] == piece && (at > 0 ==> whole[at - 1] == '\n')
  }

  /** The i-th text stands behind the ones before it and a newline after each of them. */
  ghost predicate StandsAt(texts: seq<string>, whole: string, i: nat)
    requires i < |texts|
  {
    IsPiece(whole, Total(texts, i) + i, texts[i])
  }

  lemma {:induction false} JoinStands(texts: seq<string>, i: nat)
    requires i < |texts|
    ensures StandsAt(texts, Join(texts), i) == true
  {
    if |texts| == 1 {
      WholePiece(texts[0]);
    } else if i == 0 {
      FirstPiece(texts[0], "\n" + Join(texts[1..]));
      assert Join(texts) == texts[0] + ("\n" + Join(texts[1..]));
    } else {
      JoinStands(texts[1..], i - 1);
      TotalRest(texts, i);
      PieceShifts(texts[0] + "\n", Join(texts[1..]), Total(texts[1..], i - 1) + i - 1, texts[i]);
    }
  }

  lemma {:induction false} JoinTotal(texts: seq<string>)
    requires texts != []
    ensures |Join(texts)| == Total(texts, |texts|) + |texts| - 1
  {
    TotalRest(texts, |texts|);
    if |texts| > 1 {
      JoinTotal(texts[1..]);
    }
  }

  lemma WholePiece(piece: string)
    ensures IsPiece(piece, 0, piece) == true
  {
  }

  lemma FirstPiece(piece: string, rest: string)
    ensures IsPiece(piece + rest, 0, piece) == true
  {
  }

  lemma PieceShifts(head: string, rest: string, at: nat, piece: string)
    requires head != "" && head[|head| - 1] == '\n' && IsPiece(rest, at, piece) == true
    ensures IsPiece(head + rest, |head| + at, piece) == true
  {
    assert (head + rest)[|head| + at..|head| + at + |piece|] == rest[at..at + |piece|];
  }

  lemma SamePiece(whole: string, at: nat, x: string, y: string)
    requires IsPiece(whole, at, x) && IsPiece(whole, at, y) && |x| == |y|
    ensures x == y
  {
  }

  /** The outputs of the commands, as kept. */
  function Outputs(raws: seq<string>, cmds: seq<string>): seq<string>
    requires |raws| == |cmds|
  {
    seq(|raws|, i requires 0 <= i < |raws| => Output(raws[i], cmds[i]))
  }

  /** The backed-up text holds every command's output whole, in the order of the commands, with one newline between
      neighbours and nothing else. */
  lemma ConfigPieces(raws: seq<string>, cmds: seq<string>)
    requires |raws| == |cmds|
    ensures var (text, outs) := (ConfigText(raws, cmds), Outputs(raws, cmds));
      && |text| == Total(outs, |outs|) + (if raws == [] then 0 else |raws| - 1)
      && forall i: nat | i < |raws| :: StandsAt(outs, text, i)
  {
    var outs := Outputs(raws, cmds);
    forall i: nat | i < |raws| ensures StandsAt(outs, ConfigText(raws, cmds), i) == true {
      JoinStands(outs, i);
    }
    if raws != [] {
      JoinTotal(outs);
    }
  }

  lemma {:induction false} TotalAlike(a: seq<string>, b: seq<string>, n: nat)
    requires n <= |a| == |b| && forall i | 0 <= i < n :: a[i] == b[i]
    ensures Total(a, n) == Total(b, n)
  {
    if n > 0 {
      TotalAlike(a, b, n - 1);
    }
  }

  lemma {:induction false} TotalDiffers(a: seq<string>, b: seq<string>, k: nat, n: nat)
    requires k < n <= |a| == |b| && forall i | 0 <= i < n && i != k :: a[i] == b[i]
    ensures Total(a, n) - Total(b, n) == |a[k]| - |b[k]|
  {
    if k == n - 1 {
      TotalAlike(a, b, k);
    } else {
      TotalDiffers(a, b, k, n - 1);
    }
  }

  lemma OneTextChanges(a: seq<string>, b: seq<string>, k: nat)
    requires k < |a| == |b| && a[k] != b[k] && forall i | 0 <= i < |a| && i != k :: a[i] == b[i]
    ensures Join(a) != Join(b)
  {
    JoinTotal(a);
    JoinTotal(b);
    JoinStands(a, k);
    JoinStands(b, k);
    TotalDiffers(a, b, k, |a|);
    TotalAlike(a, b, k);
    if Join(a) == Join(b) {
      SamePiece(Join(a), Total(a, k) + k, a[k], b[k]);
    }
  }

  /** A change in what is kept of one command alone changes the backed-up text, and is staged. */
  lemma OneOutputChanges(
    repo: Repo, path: Path, raws: seq<string>, raws': seq<string>, cmds: seq<string>, k: nat)
    requires |raws| == |raws'| == |cmds| && k < |cmds|
    requires Output(raws[k], cmds[k]) != Output(raws'[k], cmds[k])
    requires forall i | 0 <= i < |cmds| && i != k :: Output(raws[i], cmds[i]) == Output(raws'[i], cmds[i])
    ensures ConfigText(raws', cmds) != ConfigText(raws, cmds)
    ensures Differs(Stage(repo, path, ConfigText(raws, cmds)), path, ConfigText(raws', cmds))
  {
    OneTextChanges(Outputs(raws, cmds), Outputs(raws', cmds), k);
    ChangeStaged(repo, path, raws, raws', cmds);
  }

  /** The output is made of the canonical lines, all of them but an echo at the top. */
  lemma OutputLines(raw: string, cmd: string)
    ensures var lines := Canonical(StripAnsi(raw));
      var echoed := lines != [] && Strip(lines[0]) == Strip(cmd);
      && Output(raw, cmd) == Join(if echoed then lines[1..] else lines)
      && Canonical(Output(raw, cmd)) == (if echoed then lines[1..] else lines)
  {
    var lines := Canonical(StripAnsi(raw));
    CanonicalIs(StripAnsi(raw));
    SplitJoin(lines);
    CanonicalKept(lines);
    if lines != [] {
      CanonicalKept(lines[1..]);
    }
  }

  lemma {:induction false} JoinPlain(lines: seq<string>)
    requires forall l | l in lines :: '\r' !in l
    ensures '\r' !in Join(lines)
  {
    if lines != [] {
      JoinPlain(lines[1..]);
    }
  }

  /** Normalised text holds no carriage return. */
  lemma NormalizePlain(raw: string)
    ensures '\r' !in Normalize(raw)
  {
    CanonicalIs(StripAnsi(raw));
    assert IsBreak('\r');
    JoinPlain(Canonical(StripAnsi(raw)));
  }

  /** What is captured holds no carriage return. */
  lemma OutputPlain(raw: string, cmd: string)
    ensures '\r' !in Output(raw, cmd)
  {
    var lines := Canonical(StripAnsi(raw));
    OutputLines(raw, cmd);
    CanonicalIs(StripAnsi(raw));
    var kept := if lines != [] && Strip(lines[0]) == Strip(cmd) then lines[1..] else lines;
    forall l | l in kept ensures '\r' !in l {
      assert l in lines && Unbroken(l);
      assert IsBreak('\r');
    }
    JoinPlain(kept);
  }

  lemma ConfigPlain(raws: seq<string>, cmds: seq<string>)
    requires |raws| == |cmds|
    ensures '\r' !in ConfigText(raws, cmds)
  {
    forall i | 0 <= i < |raws| ensures '\r' !in Output(raws[i], cmds[i]) {
      OutputPlain(raws[i], cmds[i]);
    }
    JoinPlain(Outputs(raws, cmds));
  }

  /** Captures that are alike, command by command, once their control sequences are gone. */
  ghost predicate SameCapture(raws: seq<string>, raws': seq<string>) {
    |raws| == |raws'| && forall i :: 0 <= i < |raws| ==> Alike(StripAnsi(raws[i]), StripAnsi(raws'[i]))
  }

  /** Capturing the same configuration again stages no change, whatever the terminal did to its line ends. */
  lemma RecaptureUnchanged(repo: Repo, path: Path, raws: seq<string>, raws': seq<string>, cmds: seq<string>)
    requires |raws| == |cmds| && SameCapture(raws, raws')
    ensures ConfigText(raws', cmds) == ConfigText(raws, cmds)
    ensures !Differs(Stage(repo, path, ConfigText(raws, cmds)), path, ConfigText(raws', cmds))
  {
    forall i | 0 <= i < |raws| ensures Output(raws[i], cmds[i]) == Output(raws'[i], cmds[i]) {
      LineStageCanonical(StripAnsi(raws[i]), StripAnsi(raws'[i]));
    }
    assert Outputs(raws, cmds) == Outputs(raws', cmds);
    ConfigPlain(raws, cmds);
    RestageUnchanged(repo, path, ConfigText(raws, cmds));
  }

  /** And a different configuration is always staged. */
  lemma ChangeStaged(repo: Repo, path: Path, raws: seq<string>, raws': seq<string>, cmds: seq<string>)
    requires |raws| == |cmds| && |raws'| == |cmds|
    requires ConfigText(raws', cmds) != ConfigText(raws, cmds)
    ensures Differs(Stage(repo, path, ConfigText(raws, cmds)), path, ConfigText(raws', cmds))
  {
    ConfigPlain(raws, cmds);
    StageStores(repo, path, ConfigText(raws, cmds));
  }
}
