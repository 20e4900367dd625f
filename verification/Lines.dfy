/** Python's `str.splitlines`, `str.rstrip` and `"\n".join`, on which captured texts are compared and searched. */
module Lines {
  import opened Basics

  /** The characters that end a line for `splitlines`. */
  predicate IsBreak(c: char) {
    || '\n' <= c <= '\r' || '\U{1C}' <= c <= '\U{1E}'
    || c == '\U{85}' || c == '\U{2028}' || c == '\U{2029}'
  }

  /** The characters that `rstrip` removes. */
  predicate IsSpace(c: char) {
    || IsBreak(c) || c == '\t' || c == '\U{1F}' || c == ' ' || c == '\U{A0}' || c == '\U{1680}'
    || '\U{2000}' <= c <= '\U{200A}' || c == '\U{202F}' || c == '\U{205F}' || c == '\U{3000}'
  }

  lemma BreakCharacters(c: char)
    ensures IsBreak(c) <==> c in {'\n', '\U{B}', '\U{C}', '\r', '\U{1C}', '\U{1D}', '\U{1E}', '\U{85}', '\U{2028}', '\U{2029}'}
  {
  }

  /** White space beyond the line ends. */
  lemma SpaceCharacters(c: char)
    ensures IsSpace(c) && !IsBreak(c) <==>
      || c in {'\t', '\U{1F}', ' ', '\U{A0}', '\U{1680}', '\U{202F}', '\U{205F}', '\U{3000}'}
      || (0x2000 <= c as int <= 0x200A)
  {
  }

  /** Lines without their ends; a break at the very end starts no further line. */
  function SplitLines(s: string): seq<string> {
    SplitFrom(s, "")
  }

  /** The lines of `line + s`, where `line` is what was read of the current line. */
  function SplitFrom(s: string, line: string): seq<string>
    decreases |s|
  {
    if s == "" then (if line == "" then [] else [line])
    else if IsBreak(s[0]) then
      [line] + SplitFrom(if s[0] == '\r' && |s| > 1 && s[1] == '\n' then s[2..] else s[1..], "")
    else SplitFrom(s[1..], line + [s[0]])
  }

  function Join(lines: seq<string>): string {
    if lines == [] then ""
    else if |lines| == 1 then lines[0]
    else lines[0] + "\n" + Join(lines[1..])
  }

  function Rstrip(s: string): string {
    if s != "" && IsSpace(s[|s| - 1]) then Rstrip(s[..|s| - 1]) else s
  }

  function Lstrip(s: string): string {
    if s != "" && IsSpace(s[0]) then Lstrip(s[1..]) else s
  }

  function Strip(s: string): string {
    Lstrip(Rstrip(s))
  }

  ghost predicate Unbroken(s: string) {
    forall i :: 0 <= i < |s| ==> !IsBreak(s[i])
  }

  /** `Rstrip` keeps a prefix that ends in no white space and drops only white space. */
  lemma {:induction false} RstripExact(s: string)
    ensures var r := Rstrip(s);
      && r <= s && (r == "" || !IsSpace(r[|r| - 1]))
      && forall i :: |r| <= i < |s| ==> IsSpace(s[i])
  {
    if s != "" && IsSpace(s[|s| - 1]) {
      RstripExact(s[..|s| - 1]);
    }
  }

  lemma {:induction false} LstripExact(s: string)
    ensures var r := Lstrip(s);
      && |r| <= |s| && r == s[|s| - |r|..] && (r == "" || !IsSpace(r[0]))
      && forall i :: 0 <= i < |s| - |r| ==> IsSpace(s[i])
  {
    if s != "" && IsSpace(s[0]) {
      LstripExact(s[1..]);
      assert forall i :: 1 <= i < |s| ==> s[i] == s[1..][i - 1];
    }
  }

  /** `Strip` keeps a part that neither begins nor ends in white space and drops only white space around it. */
  lemma StripExact(s: string) returns (k: nat)
    ensures var r := Strip(s);
      && k + |r| <= |s| && r == s[k..k + |r|] && (r == "" || (!IsSpace(r[0]) && !IsSpace(r[|r| - 1])))
      && forall i :: 0 <= i < k || k + |r| <= i < |s| ==> IsSpace(s[i])
  {
    var t := Rstrip(s);
    RstripExact(s);
    LstripExact(t);
    k := |t| - |Lstrip(t)|;
    assert forall i :: 0 <= i < |t| ==> t[i] == s[i];
  }

  lemma {:induction false} SplitUnbroken(s: string, line: string)
    requires Unbroken(line)
    ensures forall l | l in SplitFrom(s, line) :: Unbroken(l)
    decreases |s|
  {
    if s != "" {
      if IsBreak(s[0]) {
        SplitUnbroken(if s[0] == '\r' && |s| > 1 && s[1] == '\n' then s[2..] else s[1..], "");
      } else {
        SplitUnbroken(s[1..], line + [s[0]]);
      }
    }
  }

  /** Reading on through characters that end no line. */
  lemma {:induction false} SplitReads(x: string, s: string, line: string)
    requires Unbroken(x)
    ensures SplitFrom(x + s, line) == SplitFrom(s, line + x)
  {
    if x == "" {
      assert x + s == s && line + x == line;
    } else {
      assert (x + s)[1..] == x[1..] + s;
      assert line + x == line + [x[0]] + x[1..];
      SplitReads(x[1..], s, line + [x[0]]);
    }
  }

  /** A line without breaks, then a line end: the line comes off. */
  lemma SplitLine(line: string, rest: string)
    requires Unbroken(line)
    ensures SplitLines(line + "\n" + rest) == [line] + SplitLines(rest)
  {
    var tail := "\n" + rest;
    assert line + "\n" + rest == line + tail && tail[1..] == rest;
    SplitReads(line, tail, "");
    assert "" + line == line;
  }

  lemma SplitLast(line: string)
    requires Unbroken(line) && line != ""
    ensures SplitLines(line) == [line]
  {
    SplitReads(line, "", "");
    assert line + "" == line && "" + line == line;
  }

  /** Joined lines come back from `SplitLines`, as long as the last of them is not empty. */
  lemma {:induction false} SplitJoin(lines: seq<string>)
    requires forall l | l in lines :: Unbroken(l)
    requires lines != [] ==> lines[|lines| - 1] != ""
    ensures SplitLines(Join(lines)) == lines
  {
    if |lines| == 1 {
      SplitLast(lines[0]);
    } else if lines != [] {
      SplitLine(lines[0], Join(lines[1..]));
      SplitJoin(lines[1..]);
    }
  }

  /** Splitting and joining again makes no text longer. */
  lemma {:induction false} JoinLength(s: string, line: string)
    ensures |Join(SplitFrom(s, line))| <= |line| + |s|
    decreases |s|
  {
    if s != "" {
      if IsBreak(s[0]) {
        JoinLength(if s[0] == '\r' && |s| > 1 && s[1] == '\n' then s[2..] else s[1..], "");
      } else {
        JoinLength(s[1..], line + [s[0]]);
      }
    }
  }
}
