/** ID mappings as text: the lines that are written for the kernel's map files, and the parser of such files. */
module IdMapText {
  import opened Wrappers
  import opened Decimal

  datatype IdMap = IdMap(container: int, host: int, size: int)

  function Line(m: IdMap): string {
    FormatInt(m.container) + " " + FormatInt(m.host) + " " + FormatInt(m.size)
  }

  function Printed(maps: seq<IdMap>): seq<string> {
    if maps == [] then [] else [Line(maps[0])] + Printed(maps[1..])
  }

  function Encode(maps: seq<IdMap>): string {
    Unlines(Printed(maps))
  }

  lemma {:induction false} EncodeSnoc(maps: seq<IdMap>, m: IdMap)
    ensures Encode(maps + [m]) == Encode(maps) + Line(m) + "\n"
  {
    hide Line;
    if maps == [] {
      assert Printed([m])[1..] == [];
      assert maps + [m] == [m];
    } else {
      assert (maps + [m])[1..] == maps[1..] + [m];
      EncodeSnoc(maps[1..], m);
      assert Printed(maps + [m])[1..] == Printed(maps[1..] + [m]);
      assert Printed(maps)[1..] == Printed(maps[1..]);
      assert Encode(maps + [m]) == Line(maps[0]) + "\n" + (Encode(maps[1..]) + Line(m) + "\n");
    }
  }

  lemma EncodeNothing()
    ensures Encode([]) == ""
  {
  }

  method EncodeIdMapping(maps: seq<IdMap>) returns (data: string)
    ensures data == Encode(maps)
  {
    hide Line, Encode;
    EncodeNothing();
    data := "";
    for i := 0 to |maps|
      invariant data == Encode(maps[..i])
    {
      EncodeSnoc(maps[..i], maps[i]);
      assert maps[..i + 1] == maps[..i] + [maps[i]];
      data := data + (Line(maps[i]) + "\n");
    }
    assert maps[..|maps|] == maps;
  }

  // ----- the parser -----

  predicate IsSpace(c: char) {
    || c == '\t' || c == '\n' || c == '\U{B}' || c == '\U{C}' || c == '\r' || c == ' ' || c == '\U{85}' || c == '\U{A0}'
    || c == '\U{1680}' || '\U{2000}' <= c <= '\U{200A}' || c == '\U{2028}' || c == '\U{2029}' || c == '\U{202F}'
    || c == '\U{205F}' || c == '\U{3000}'
  }

  predicate NotSpace(c: char) {
    !IsSpace(c)
  }

  /** The words of a line, split around white space. */
  function Words(s: string): seq<string>
    decreases |s|
  {
    if s == "" then []
    else if IsSpace(s[0]) then Words(s[1..])
    else
      var n := Span(s, NotSpace);
      [s[..n]] + Words(s[n..])
  }

  function NumberAt(words: seq<string>, i: nat): int {
    if i < |words| then ParseInt64(words[i]) else 0
  }

  /** Words that are missing or are no numbers count as zero; words beyond the third are ignored. */
  function ParseWords(words: seq<string>): IdMap {
    IdMap(NumberAt(words, 0), NumberAt(words, 1), NumberAt(words, 2))
  }

  /** One mapping per line that is not blank, as far as the caller wants it. */
  function ParseLines(lines: seq<string>, wanted: IdMap -> bool): seq<IdMap> {
    if lines == [] then []
    else
      var words := Words(lines[0]);
      (if words == [] || !wanted(ParseWords(words)) then [] else [ParseWords(words)]) + ParseLines(lines[1..], wanted)
  }

  /** No mapping at all if a line is too long for the scanner. */
  function Parse(text: string, wanted: IdMap -> bool): Option<seq<IdMap>> {
    var scan := ScanLines(text);
    if scan.whole then Some(ParseLines(scan.lines, wanted)) else None
  }

  lemma {:induction false} ParseSnoc(lines: seq<string>, line: string, wanted: IdMap -> bool)
    ensures ParseLines(lines + [line], wanted) == ParseLines(lines, wanted) + ParseLines([line], wanted)
  {
    hide Words, ParseWords;
    if lines == [] {
      assert lines + [line] == [line];
    } else {
      assert (lines + [line])[1..] == lines[1..] + [line];
      ParseSnoc(lines[1..], line, wanted);
    }
  }

  method ParseIdMap(text: string, wanted: IdMap -> bool) returns (r: Option<seq<IdMap>>)
    ensures r == Parse(text, wanted)
  {
    hide Words, ParseWords;
    var out := [];
    var scan := ScanLines(text);
    var lines := scan.lines;
    for i := 0 to |lines|
      invariant out == ParseLines(lines[..i], wanted)
    {
      ParseSnoc(lines[..i], lines[i], wanted);
      assert lines[..i + 1] == lines[..i] + [lines[i]];
      assert [lines[i]][1..] == [];
      var words := Words(lines[i]);
      if words == [] {
        continue;
      }
      var p := ParseWords(words);
      if wanted(p) {
        out := out + [p];
      }
    }
    assert lines[..|lines|] == lines;
    return if scan.whole then Some(out) else None;
  }

  // ----- round trip -----

  ghost predicate Solid(s: string) {
    s != "" && forall c <- s :: NotSpace(c)
  }

  lemma NumbersAreSolid(n: int)
    ensures Solid(FormatInt(n))
  {
  }

  /** A word and a blank in front of more text. */
  lemma WordsCons(word: string, rest: string)
    requires Solid(word) && (rest == "" || rest[0] == ' ')
    ensures Words(word + rest) == [word] + (if rest == "" then [] else Words(rest[1..]))
  {
    var s := word + rest;
    SpanOfPrefix(word, rest, NotSpace);
    assert s[0] == word[0] && NotSpace(s[0]);
    assert Words(s) == [word] + Words(rest);
  }

  lemma WordsOfLine(m: IdMap)
    ensures Words(Line(m)) == [FormatInt(m.container), FormatInt(m.host), FormatInt(m.size)]
  {
    hide FormatInt, Words;
    var a, b, c := FormatInt(m.container), FormatInt(m.host), FormatInt(m.size);
    NumbersAreSolid(m.container);
    NumbersAreSolid(m.host);
    NumbersAreSolid(m.size);
    WordsCons(c, "");
    assert c + "" == c;
    WordsCons(b, " " + c);
    assert (" " + c)[1..] == c;
    WordsCons(a, " " + (b + (" " + c)));
    assert (" " + (b + (" " + c)))[1..] == b + (" " + c);
    assert Line(m) == a + (" " + (b + (" " + c)));
  }

  ghost predicate Blank(s: string) {
    forall c <- s :: IsSpace(c)
  }

  lemma {:induction false} BlanksAreSkipped(gap: string, rest: string)
    requires Blank(gap)
    ensures Words(gap + rest) == Words(rest)
  {
    if gap == "" {
      assert gap + rest == rest;
    } else {
      assert (gap + rest)[0] == gap[0] && (gap + rest)[1..] == gap[1..] + rest;
      BlanksAreSkipped(gap[1..], rest);
    }
  }

  /** White space of any length does no more than separate: what stands on its two sides is read by itself. */
  lemma {:induction false} BlanksSeparate(a: string, gap: string, b: string)
    requires gap != "" && Blank(gap)
    ensures Words(a + (gap + b)) == Words(a) + Words(b)
    decreases |a|
  {
    var s := a + (gap + b);
    if a == "" {
      assert s == gap + b;
      BlanksAreSkipped(gap, b);
    } else if IsSpace(a[0]) {
      assert s[0] == a[0] && s[1..] == a[1..] + (gap + b);
      BlanksSeparate(a[1..], gap, b);
    } else {
      var n := Span(a, NotSpace);
      SpanStops(a, gap + b);
      assert s[0] == a[0] && s[..n] == a[..n] && s[n..] == a[n..] + (gap + b);
      BlanksSeparate(a[n..], gap, b);
    }
  }

  lemma SpanStops(a: string, rest: string)
    requires rest != "" && IsSpace(rest[0])
    ensures Span(a + rest, NotSpace) == Span(a, NotSpace)
  {
    var n := Span(a, NotSpace);
    assert a == a[..n] + a[n..];
    var tail := a[n..] + rest;
    assert a + rest == a[..n] + tail;
    SpanOfPrefix(a[..n], tail, NotSpace);
  }

  /** Solid text is one word, whatever surrounds it. */
  lemma WordAlone(lead: string, word: string, trail: string)
    requires Blank(lead) && Solid(word) && Blank(trail)
    ensures Words(lead + (word + trail)) == [word]
  {
    BlanksAreSkipped(lead, word + trail);
    WordsCons(word, "");
    assert word + "" == word;
    if trail == "" {
      assert word + trail == word;
    } else {
      BlanksSeparate(word, trail, "");
      assert trail + "" == trail;
    }
  }

  /** A line as the kernel lists it, with its columns padded, is read like the one with single blanks. */
  lemma PaddingIsIgnored(m: IdMap, lead: string, gap1: string, gap2: string, trail: string)
    requires IsInt64(m.container) && IsInt64(m.host) && IsInt64(m.size)
    requires Blank(lead) && Blank(gap1) && Blank(gap2) && Blank(trail) && gap1 != "" && gap2 != ""
    ensures ParseLines([Padded(m, lead, gap1, gap2, trail)], Any) == [m] == ParseLines([Line(m)], Any)
  {
    hide FormatInt, Words, ParseInt64, Blank, Solid, NotSpace;
    var a, b, c := FormatInt(m.container), FormatInt(m.host), FormatInt(m.size);
    NumbersAreSolid(m.container);
    NumbersAreSolid(m.host);
    NumbersAreSolid(m.size);
    NoBlank();
    WordAlone(lead, a, "");
    WordAlone("", b, "");
    WordAlone("", c, trail);
    assert lead + (a + "") == lead + a && "" + (b + "") == b && "" + (c + trail) == c + trail;
    BlanksSeparate(b, gap2, c + trail);
    BlanksSeparate(lead + a, gap1, b + (gap2 + (c + trail)));
    assert Words(Padded(m, lead, gap1, gap2, trail)) == [a, b, c];
    WordsOfLine(m);
    ParseFormatInt(m.container);
    ParseFormatInt(m.host);
    ParseFormatInt(m.size);
    assert [Line(m)][1..] == [] && [Padded(m, lead, gap1, gap2, trail)][1..] == [];
  }

  function Padded(m: IdMap, lead: string, gap1: string, gap2: string, trail: string): string {
    (lead + FormatInt(m.container)) + (gap1 + (FormatInt(m.host) + (gap2 + (FormatInt(m.size) + trail))))
  }

  lemma NoBlank()
    ensures Blank("")
  {
  }

  lemma LineIsOneLine(m: IdMap)
    ensures OneLine(Line(m))
  {
    hide FormatInt;
    NumbersAreSolid(m.container);
    NumbersAreSolid(m.host);
    NumbersAreSolid(m.size);
  }

  predicate IsInt64(n: int) {
    MIN_INT64 <= n <= MAX_INT64
  }

  /** Every mapping is wanted when no filter is given. */
  predicate Any(m: IdMap) {
    true
  }

  lemma LineIsShort(m: IdMap)
    requires IsInt64(m.container) && IsInt64(m.host) && IsInt64(m.size)
    ensures |Line(m)| <= MAX_LINE
  {
    hide FormatInt;
    FormatLength(m.container);
    FormatLength(m.host);
    FormatLength(m.size);
  }

  lemma {:induction false} ParsePrinted(maps: seq<IdMap>)
    requires forall m <- maps :: IsInt64(m.container) && IsInt64(m.host) && IsInt64(m.size)
    ensures ParseLines(Printed(maps), Any) == maps
    ensures forall l <- Printed(maps) :: OneLine(l) && |l| <= MAX_LINE
  {
    hide FormatInt, Words, OneLine, ParseInt64, Line;
    if maps != [] {
      var m := maps[0];
      WordsOfLine(m);
      LineIsOneLine(m);
      LineIsShort(m);
      ParseFormatInt(m.container);
      ParseFormatInt(m.host);
      ParseFormatInt(m.size);
      ParsePrinted(maps[1..]);
      assert Printed(maps)[1..] == Printed(maps[1..]);
      assert maps == [m] + maps[1..];
    }
  }

  /** Every list of mappings is read back from its text, whatever the signs of its numbers. */
  lemma RoundTrip(maps: seq<IdMap>)
    requires forall m <- maps :: IsInt64(m.container) && IsInt64(m.host) && IsInt64(m.size)
    ensures Parse(Encode(maps), Any) == Some(maps)
  {
    hide ParseLines, ScanLines, Printed;
    ParsePrinted(maps);
    ScanOfUnlines(Printed(maps));
  }
}
