/**
 The string handling behind the INI reader and writer (src/config/config.c):
 fgets, comment stripping, trimming, case-blind comparison, "%d" and atoi.
 A C string is a sequence without its terminator.
 */
module ConfigText {

  /** fgets on a 1024-byte buffer takes at most this many characters. */
  const MAX_LINE: nat := 1023
  const INT_MAX: int := 0x7FFF_FFFF
  const UINT_RANGE: int := 0x1_0000_0000

  predicate IsBlank(c: char) { c == ' ' || c == '\t' }

  predicate IsSpace(c: char) { IsBlank(c) || c == '\n' || c == '\r' }

  predicate IsDigit(c: char) { '0' <= c <= '9' }

  /** The text before the first c, all of it when there is none. */
  function Until(s: string, c: char): (r: string)
    ensures r <= s && c !in r && (|r| < |s| ==> s[|r|] == c)
  {
    if s == [] || s[0] == c then [] else [s[0]] + Until(s[1..], c)
  }

  function DropBlanks(s: string): string {
    if s != [] && IsBlank(s[0]) then DropBlanks(s[1..]) else s
  }

  /** Trailing characters go, but the scan never passes the first one. */
  function DropTrailing(s: string, p: char -> bool): string {
    if |s| > 1 && p(s[|s| - 1]) then DropTrailing(s[..|s| - 1], p) else s
  }

  /** The same without the exception for the first character. */
  function DropAllTrailing(s: string, p: char -> bool): string {
    if s != [] && p(s[|s| - 1]) then DropAllTrailing(s[..|s| - 1], p) else s
  }

  function LowerChar(c: char): char {
    if 'A' <= c <= 'Z' then (c as int - 'A' as int + 'a' as int) as char else c
  }

  function Lower(s: string): string {
    seq(|s|, i requires 0 <= i < |s| => LowerChar(s[i]))
  }

  predicate AllDigits(s: string) { forall i :: 0 <= i < |s| ==> IsDigit(s[i]) }

  /** How many characters the next fgets takes from the text. */
  function LineLength(text: string, limit: nat): (n: nat)
    ensures n <= |text| && n <= limit
    ensures forall i :: 0 <= i < n - 1 ==> text[i] != '\n'
    ensures n == 0 <==> text == [] || limit == 0
  {
    if text == [] || limit == 0 then 0
    else if text[0] == '\n' then 1
    else 1 + LineLength(text[1..], limit - 1)
  }

  function DigitChar(d: nat): char
    requires d < 10
  {
    ('0' as int + d) as char
  }

  /** "%d" and "%u" on a non-negative number. */
  function Decimal(n: nat): (s: string)
    ensures s != [] && AllDigits(s)
  {
    if n < 10 then [DigitChar(n)] else Decimal(n / 10) + [DigitChar(n % 10)]
  }

  function FromDecimal(s: string): nat
    requires AllDigits(s)
  {
    if s == [] then 0 else 10 * FromDecimal(s[..|s| - 1]) + (s[|s| - 1] as int - '0' as int)
  }

  lemma {:induction false} DecimalRoundTrip(n: nat)
    ensures FromDecimal(Decimal(n)) == n
  {
    if n >= 10 {
      DecimalRoundTrip(n / 10);
      var s := Decimal(n);
      assert s[..|s| - 1] == Decimal(n / 10);
    } else {
      var s := Decimal(n);
      assert s[..|s| - 1] == [];
    }
  }

  /** A number of at most k digits prints in at most k characters. */
  lemma {:induction false} DecimalIsShort(n: nat, k: nat, bound: nat)
    requires n < bound && bound <= Power10(k) && k > 0
    ensures |Decimal(n)| <= k
  {
    if n >= 10 {
      assert k > 1;
      DecimalIsShort(n / 10, k - 1, Power10(k - 1));
    }
  }

  function Power10(k: nat): nat {
    if k == 0 then 1 else 10 * Power10(k - 1)
  }

  // --- how the pieces act on a concatenation ------------------------------------

  lemma {:induction false} UntilConcat(a: string, b: string, c: char)
    ensures Until(a + b, c) == if c in a then Until(a, c) else a + Until(b, c)
  {
    if a == [] {
      assert a + b == b;
    } else {
      assert (a + b)[1..] == a[1..] + b;
      if a[0] != c {
        UntilConcat(a[1..], b, c);
        assert c in a <==> c in a[1..];
      }
    }
  }

  lemma UntilAbsent(s: string, c: char)
    requires c !in s
    ensures Until(s, c) == s
  {}

  lemma {:induction false} DropTrailingAfter(head: string, tail: string, p: char -> bool)
    requires |head| > 1 && !p(head[|head| - 1])
    ensures DropTrailing(head + tail, p) == head + DropAllTrailing(tail, p)
  {
    if tail == [] || !p(tail[|tail| - 1]) {
    } else {
      assert (head + tail)[..|head + tail| - 1] == head + tail[..|tail| - 1];
      DropTrailingAfter(head, tail[..|tail| - 1], p);
    }
  }

  /** One blank in front changes nothing that survives trimming on both sides. */
  lemma {:induction false} LeadingBlank(s: string)
    ensures var t := DropAllTrailing([' '] + s, IsSpace);
            DropBlanks(t) == DropBlanks(DropAllTrailing(s, IsSpace))
  {
    if s != [] && IsSpace(s[|s| - 1]) {
      assert ([' '] + s)[..|[' '] + s| - 1] == [' '] + s[..|s| - 1];
      LeadingBlank(s[..|s| - 1]);
    } else if s == [] {
      assert [' '] + s == [' '];
      assert [' '][..0] == [];
    } else {
      assert ([' '] + s)[1..] == s;
    }
  }

  lemma {:induction false} TrailingNewline(s: string)
    ensures DropAllTrailing(s + ['\n'], IsSpace) == DropAllTrailing(s, IsSpace)
  {}

  lemma {:induction false} DropAllTrailingShape(s: string, p: char -> bool)
    ensures var r := DropAllTrailing(s, p);
            r <= s && (r != [] ==> !p(r[|r| - 1])) && (r == s <==> s == [] || !p(s[|s| - 1]))
  {
    if s != [] && p(s[|s| - 1]) {
      DropAllTrailingShape(s[..|s| - 1], p);
    }
  }

  lemma {:induction false} DropBlanksShape(s: string)
    ensures var r := DropBlanks(s);
            |r| <= |s| && r == s[|s| - |r|..] && (r != [] ==> !IsBlank(r[0])) && (r == s <==> s == [] || !IsBlank(s[0]))
  {
    if s != [] && IsBlank(s[0]) {
      DropBlanksShape(s[1..]);
    }
  }

  lemma {:induction false} DropTrailingShape(s: string, p: char -> bool)
    ensures var r := DropTrailing(s, p);
            r <= s && (|r| > 1 ==> !p(r[|r| - 1])) && (|r| == 0 <==> |s| == 0)
  {
    if |s| > 1 && p(s[|s| - 1]) {
      DropTrailingShape(s[..|s| - 1], p);
    }
  }

  lemma {:induction false} LineLengthOfLine(line: string, rest: string, limit: nat)
    requires |line| < limit && '\n' !in line
    ensures LineLength(line + ['\n'] + rest, limit) == |line| + 1
  {
    var text := line + ['\n'] + rest;
    if line == [] {
      assert text[0] == '\n';
    } else {
      assert text[1..] == line[1..] + ['\n'] + rest;
      LineLengthOfLine(line[1..], rest, limit - 1);
    }
  }

  // --- the loops that compute them ---------------------------------------------------

  method CutAt(s: string, c: char) returns (r: string)
    ensures r == Until(s, c)
  {
    var i := 0;
    while i < |s| && s[i] != c
      invariant i <= |s| && c !in s[..i]
    {
      i := i + 1;
    }
    r := s[..i];
    assert s == s[..i] + s[i..];
    UntilConcat(s[..i], s[i..], c);
  }

  method TrimStart(s: string) returns (r: string)
    ensures r == DropBlanks(s)
  {
    var i := 0;
    while i < |s| && IsBlank(s[i])
      invariant i <= |s| && DropBlanks(s) == DropBlanks(s[i..])
    {
      i := i + 1;
    }
    r := s[i..];
  }

  method TrimEnd(s: string, p: char -> bool) returns (r: string)
    ensures r == DropTrailing(s, p)
  {
    var n := |s|;
    assert s[..n] == s;
    while n > 1 && p(s[n - 1])
      invariant 0 <= n <= |s| && DropTrailing(s, p) == DropTrailing(s[..n], p)
    {
      assert s[..n][..n - 1] == s[..n - 1];
      n := n - 1;
    }
    r := s[..n];
  }

  method GetLine(text: string) returns (line: string, rest: string)
    ensures var n := LineLength(text, MAX_LINE); line == text[..n] && rest == text[n..]
  {
    var n := 0;
    var ended := false;
    while n < |text| && n < MAX_LINE && !ended
      invariant n <= |text| && n <= MAX_LINE
      invariant LineLength(text, MAX_LINE) == n + if ended then 0 else LineLength(text[n..], MAX_LINE - n)
    {
      ended := text[n] == '\n';
      n := n + 1;
    }
    line, rest := text[..n], text[n..];
  }
}
