/** Decimal numerals and splitting on a separator, as far as a hunk header needs them. */
module Decimal {
  import opened Basics

  predicate IsDigit(c: char) {
    '0' <= c <= '9'
  }

  function Digit(n: nat): char
    requires n < 10
  {
    ['0', '1', '2', '3', '4', '5', '6', '7', '8', '9'][n]
  }

  function Value(c: char): nat
    requires IsDigit(c)
  {
    (c as int) - ('0' as int)
  }

  function Show(n: nat): (s: string)
    ensures s != "" && forall i | 0 <= i < |s| :: IsDigit(s[i])
  {
    if n < 10 then [Digit(n)] else Show(n / 10) + [Digit(n % 10)]
  }

  function Digits(s: string): Option<nat> {
    if s == "" then Some(0)
    else if !IsDigit(s[|s| - 1]) then None
    else match Digits(s[..|s| - 1])
      case None => None
      case Some(n) => Some(10 * n + Value(s[|s| - 1]))
  }

  /** `int(s)` on an optionally signed decimal numeral; anything else raises. */
  function ParseInt(s: string): Option<int> {
    var sign := s != "" && (s[0] == '-' || s[0] == '+');
    var digits := if sign then s[1..] else s;
    if digits == "" then None
    else match Digits(digits)
      case None => None
      case Some(n) => Some(if sign && s[0] == '-' then -(n as int) else n)
  }

  lemma {:induction false} DigitsOfShow(n: nat)
    ensures Digits(Show(n)) == Some(n)
  {
    if n < 10 {
      assert Digits("") == Some(0);
      assert [Digit(n)][..0] == "";
    } else {
      DigitsOfShow(n / 10);
      assert Show(n)[..|Show(n)| - 1] == Show(n / 10);
    }
  }

  lemma ParseSigned(n: nat)
    ensures ParseInt(['-'] + Show(n)).Some? && ParseInt(['-'] + Show(n)).value == -(n as int)
    ensures ParseInt(['+'] + Show(n)).Some? && ParseInt(['+'] + Show(n)).value == n
  {
    DigitsOfShow(n);
    assert (['-'] + Show(n))[1..] == Show(n) && (['+'] + Show(n))[1..] == Show(n);
  }

  /** `s.split(c)`. */
  function Split(s: string, c: char): (parts: seq<string>)
    ensures parts != []
  {
    if s == "" then [""]
    else
      var parts := Split(s[1..], c);
      if s[0] == c then [""] + parts else [[s[0]] + parts[0]] + parts[1..]
  }

  lemma {:induction false} SplitFirst(x: string, c: char, y: string)
    requires c !in x
    ensures Split(x + [c] + y, c) == [x] + Split(y, c)
  {
    if x == "" {
      assert x + [c] + y == [c] + y;
      assert ([c] + y)[1..] == y;
    } else {
      assert (x + [c] + y)[1..] == x[1..] + [c] + y;
      SplitFirst(x[1..], c, y);
      assert [x[0]] + x[1..] == x;
    }
  }

  lemma {:induction false} SplitWhole(x: string, c: char)
    requires c !in x
    ensures Split(x, c) == [x]
  {
    if x != "" {
      SplitWhole(x[1..], c);
      assert [x[0]] + x[1..] == x;
    }
  }
}
