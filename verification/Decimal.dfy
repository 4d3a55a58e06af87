/** Decimal text: what the number formatters print and what the number parsers read back. */
module Decimal {

  predicate IsDigit(c: char) {
    '0' <= c <= '9'
  }

  ghost predicate AllDigits(s: string) {
    forall c <- s :: IsDigit(c)
  }

  function DigitChar(d: nat): (c: char)
    requires d < 10
    ensures IsDigit(c) && DigitValue(c) == d
  {
    '0' + d as char
  }

  function DigitValue(c: char): (d: nat)
    requires IsDigit(c)
    ensures d < 10
  {
    (c as int) - ('0' as int)
  }

  /** Plain decimal digits, without leading zeros. */
  function Digits(n: nat): (s: string)
    ensures s != "" && AllDigits(s)
  {
    if n < 10 then [DigitChar(n)] else Digits(n / 10) + [DigitChar(n % 10)]
  }

  function Value(s: string): nat
    requires AllDigits(s)
  {
    if s == "" then 0 else 10 * Value(s[..|s| - 1]) + DigitValue(s[|s| - 1])
  }

  lemma {:induction false} ValueOfDigits(n: nat)
    ensures Value(Digits(n)) == n
  {
    var s := Digits(n);
    if n < 10 {
      assert s[..|s| - 1] == "";
    } else {
      ValueOfDigits(n / 10);
      assert s[..|s| - 1] == Digits(n / 10);
    }
  }

  function FormatInt(n: int): string {
    if n < 0 then "-" + Digits(-n) else Digits(n)
  }

  const MAX_INT64 := 0x7FFF_FFFF_FFFF_FFFF
  const MIN_INT64 := -0x8000_0000_0000_0000

  /** Base-10 signed parse with the error dropped: 0 for text that is no number, the nearest bound when out of range. */
  function ParseInt64(s: string): int {
    var negative := s != "" && s[0] == '-';
    var digits := if s != "" && s[0] in {'-', '+'} then s[1..] else s;
    if digits == "" || exists c <- digits :: !IsDigit(c) then 0
    else
      var v: int := Value(digits);
      if negative then (if -v < MIN_INT64 then MIN_INT64 else -v)
      else if v > MAX_INT64 then MAX_INT64 else v
  }

  /** Signed text is read back exactly by a 64-bit parse, for every 64-bit number. */
  lemma ParseFormatInt(n: int)
    requires MIN_INT64 <= n <= MAX_INT64
    ensures ParseInt64(FormatInt(n)) == n
  {
    var s := FormatInt(n);
    if n < 0 {
      ValueOfDigits(-n);
      assert s[1..] == Digits(-n);
    } else {
      ValueOfDigits(n);
      assert IsDigit(s[0]);
    }
  }

  // ----- scanning -----

  /** How many leading characters satisfy `p`. */
  function Span(s: string, p: char -> bool): (n: nat)
    ensures n <= |s|
    ensures forall i :: 0 <= i < n ==> p(s[i])
    ensures n < |s| ==> !p(s[n])
  {
    if s != "" && p(s[0]) then 1 + Span(s[1..], p) else 0
  }

  lemma SpanOfPrefix(a: string, b: string, p: char -> bool)
    requires forall c <- a :: p(c)
    requires b == "" || !p(b[0])
    ensures Span(a + b, p) == |a|
    ensures (a + b)[..|a|] == a && (a + b)[|a|..] == b
  {
    var n := Span(a + b, p);
    assert forall i :: 0 <= i < |a| ==> (a + b)[i] == a[i];
    if b != "" {
      assert (a + b)[|a|] == b[0];
    }
  }

  predicate NotNewline(c: char) {
    c != '\n'
  }

  function DropCR(line: string): string {
    if line != "" && line[|line| - 1] == '\r' then line[..|line| - 1] else line
  }

  /** The scanner gives up on a line that does not fit into its buffer together with its newline. */
  const MAX_LINE := 65535

  /** The lines up to the first that is too long, and whether there is none. */
  datatype Scan = Scan(lines: seq<string>, whole: bool)

  /** What a line scanner yields: split at newlines, a carriage return before one dropped, no empty last line. */
  function ScanLines(text: string): Scan {
    if text == "" then Scan([], true)
    else
      var n := Span(text, NotNewline);
      if n > MAX_LINE then Scan([], false)
      else if n == |text| then Scan([DropCR(text)], true)
      else
        var rest := ScanLines(text[n + 1..]);
        Scan([DropCR(text[..n])] + rest.lines, rest.whole)
  }

  function Unlines(lines: seq<string>): string {
    if lines == [] then "" else lines[0] + "\n" + Unlines(lines[1..])
  }

  ghost predicate OneLine(line: string) {
    '\n' !in line && '\r' !in line
  }

  /** Joined lines are scanned back as they were, unless one of them is too long. */
  lemma {:induction false} ScanOfUnlines(lines: seq<string>)
    requires forall l <- lines :: OneLine(l)
    ensures ScanLines(Unlines(lines)).whole <==> forall l <- lines :: |l| <= MAX_LINE
    ensures ScanLines(Unlines(lines)).whole ==> ScanLines(Unlines(lines)).lines == lines
  {
    hide OneLine, ScanLines;
    if lines == [] {
      NoLines();
    } else {
      var line, rest := lines[0], Unlines(lines[1..]);
      assert line in lines;
      FirstLine(line, rest);
      ScanOfUnlines(lines[1..]);
      assert lines == [line] + lines[1..];
      assert Unlines(lines) == line + ("\n" + rest);
    }
  }

  lemma NoLines()
    ensures ScanLines("") == Scan([], true)
  {
  }

  lemma FirstLine(line: string, rest: string)
    requires OneLine(line)
    ensures ScanLines(line + ("\n" + rest)) ==
            if |line| > MAX_LINE then Scan([], false)
            else Scan([line] + ScanLines(rest).lines, ScanLines(rest).whole)
  {
    var text := line + ("\n" + rest);
    SpanOfPrefix(line, "\n" + rest, NotNewline);
    assert text[|line| + 1..] == rest;
    assert DropCR(line) == line;
  }

  function Tens(k: nat): nat {
    if k == 0 then 1 else 10 * Tens(k - 1)
  }

  lemma {:induction false} DigitsLength(n: nat, k: nat)
    requires n < Tens(k) && k > 0
    ensures |Digits(n)| <= k
  {
    if n >= 10 {
      assert k > 1;
      DigitsLength(n / 10, k - 1);
    }
  }

  lemma NineteenTens()
    ensures Tens(10) == 10000000000 && Tens(19) == 10000000000000000000
  {
    assert Tens(2) == 100;
    assert Tens(4) == 10000;
    assert Tens(6) == 1000000;
    assert Tens(8) == 100000000;
    assert Tens(10) == 10000000000;
    assert Tens(12) == 1000000000000;
    assert Tens(14) == 100000000000000;
    assert Tens(16) == 10000000000000000;
    assert Tens(18) == 1000000000000000000;
  }

  /** A 64-bit number takes at most 20 characters. */
  lemma FormatLength(n: int)
    requires MIN_INT64 <= n <= MAX_INT64
    ensures |FormatInt(n)| <= 20
  {
    NineteenTens();
    DigitsLength(if n < 0 then -n else n, 19);
  }
}
