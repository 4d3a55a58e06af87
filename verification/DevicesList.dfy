/** Printing exceptions as devices.list lines and rebuilding an emulator from such text. */
module DevicesList {
  import opened Wrappers
  import opened Permissions
  import opened DeviceEmulator
  import opened Decimal

  const MAX_UINT32 := 0xFFFF_FFFF

  datatype ListError = BadFormat | BadNumber | BadAccess | LineTooLong

  datatype Parsed = EveryDevice | OneRule(rule: DeviceRule) | Malformed(error: ListError)

  datatype Listing = Loaded(state: Ruleset) | Unreadable(error: ListError)

  function NumberString(n: int): string {
    if n == WILDCARD then "*" else FormatInt(n)
  }

  function CgroupString(rule: Rule): string {
    [rule.node] + " " + NumberString(rule.major) + ":" + NumberString(rule.minor) + " " + rule.perms
  }

  function LineOf(e: DeviceRule): string {
    CgroupString(Rule(e.meta.node, e.meta.major, e.meta.minor, e.perms, true))
  }

  // ----- parsing one line -----

  predicate IsSpace(c: char) {
    c in {' ', '\t', '\n', '\r'} || c as int == 12
  }

  predicate IsAccess(c: char) {
    c in {'r', 'w', 'm'}
  }

  predicate IsNumber(s: string) {
    s == "*" || (s != "" && forall c <- s :: IsDigit(c))
  }

  /** The length of a leading star or run of digits. */
  function NumberLength(s: string): (n: nat)
    ensures n <= |s|
    ensures n > 0 ==> IsNumber(s[..n])
  {
    if s != "" && s[0] == '*' then assert s[..1] == "*"; 1 else Span(s, IsDigit)
  }

  function Number(s: string): Option<int>
    requires IsNumber(s)
  {
    if s == "*" then Some(WILDCARD)
    else if Value(s) <= MAX_UINT32 then Some(Value(s)) else None
  }

  datatype Fields = Fields(node: char, major: string, minor: string, perms: string)

  /** The fields after the colon: minor number, spaces, access letters to the end. */
  function SplitTail(t: string): (r: Option<(string, string)>)
    ensures r.Some? ==> IsNumber(r.value.0)
  {
    var j := NumberLength(t);
    var u := t[j..];
    var i := Span(u, IsSpace);
    var perms := u[i..];
    if j == 0 || i == 0 || perms == "" || Span(perms, IsAccess) < |perms| then None
    else Some((t[..j], perms))
  }

  /** Type, spaces, major:minor, spaces, access letters; the classes are disjoint, so the split is unique. */
  function Split(line: string): (r: Option<Fields>)
    ensures r.Some? ==> IsNumber(r.value.major) && IsNumber(r.value.minor)
  {
    if line == "" || line[0] !in {'a', 'b', 'c'} then None
    else
      var n := Span(line[1..], IsSpace);
      var s := line[1 + n..];
      var k := NumberLength(s);
      if n == 0 || k == 0 || k == |s| || s[k] != ':' then None
      else
        var tail := SplitTail(s[k + 1..]);
        if tail.None? then None
        else Some(Fields(line[0], s[..k], tail.value.0, tail.value.1))
  }

  function ParseLine(line: string): Parsed {
    var fields := Split(line);
    if fields.None? then Malformed(BadFormat)
    else
      var f := fields.value;
      if f.node == 'a' then EveryDevice
      else
        var major, minor := Number(f.major), Number(f.minor);
        if major.None? || minor.None? then Malformed(BadNumber)
        else if !IsValid(f.perms) || IsEmpty(f.perms) then Malformed(BadAccess)
        else OneRule(DeviceRule(DeviceMeta(f.node, major.value, minor.value), f.perms))
  }

  // ----- parsing a list -----

  function LoadLines(s: Ruleset, lines: seq<string>): Listing
    decreases |lines|
  {
    if lines == [] then Loaded(s)
    else
      match ParseLine(lines[0])
      case Malformed(e) => Unreadable(e)
      case EveryDevice => LoadLines(Ruleset(true, map[]), lines[1..])
      case OneRule(rule) =>
        LoadLines(if s.defaultAllow then Removed(s, rule) else Added(s, rule), lines[1..])
  }

  const EMPTY := Ruleset(false, map[])

  /** The lines are taken one by one; a line too long for the scanner is met only if those before it were fine. */
  function FromList(text: string): Listing {
    var scan := ScanLines(text);
    var r := LoadLines(EMPTY, scan.lines);
    if r.Loaded? && !scan.whole then Unreadable(LineTooLong) else r
  }

  lemma {:induction false} RemovalFromNothing(s: Ruleset, rule: DeviceRule)
    requires s.rules == map[]
    ensures RemoveRule(s, rule) == Applied(s)
  {
    RemoveRuleCondition(s, rule);
    OperationsAreSetOperations("", rule.perms);
  }

  ghost predicate Loadable(s: Ruleset) {
    s.defaultAllow ==> s.rules == map[]
  }

  /** A parsed line is allowed without error; in black-list mode there is no exception to remove. */
  lemma AllowNeverFails(s: Ruleset, rule: DeviceRule)
    requires Loadable(s) && rule.meta.node != 'a'
    ensures SetAccess(s, Some(rule), true) == Applied(if s.defaultAllow then Removed(s, rule) else Added(s, rule))
    ensures Loadable(SetAccess(s, Some(rule), true).state)
  {
    if s.defaultAllow {
      RemovalFromNothing(s, rule);
    }
  }

  lemma AddedOrNothing(s: Ruleset, rule: DeviceRule)
    ensures Added(s, rule).rules != map[]
    ensures s.rules == map[] ==> Removed(s, rule).rules == map[]
  {
    assert rule.meta in Added(s, rule).rules;
    OperationsAreSetOperations("", rule.perms);
  }

  lemma ParsedRuleIsTyped(line: string)
    ensures ParseLine(line).OneRule? ==> ParseLine(line).rule.meta.node != 'a'
  {
    hide Split, Number;
  }

  method EmulatorFromList(text: string) returns (e: Emulator, err: Option<ListError>)
    ensures match FromList(text)
            case Loaded(s) => err == None && e.State() == s
            case Unreadable(x) => err == Some(x)
    ensures err == None ==> Loadable(e.State()) && (e.made <==> e.State().rules != map[])
  {
    hide ParseLine, Added, Removed, RemoveRule;
    e := new Emulator();
    err := None;
    var scan := ScanLines(text);
    var lines := scan.lines;
    for i := 0 to |lines|
      invariant fresh(e) && Loadable(e.State()) && (e.made <==> e.State().rules != map[])
      invariant LoadLines(EMPTY, lines) == LoadLines(e.State(), lines[i..])
    {
      assert lines[i..][0] == lines[i] && lines[i..][1..] == lines[i + 1..];
      var parsed := ParseLine(lines[i]);
      match parsed
      case Malformed(x) =>
        err := Some(x);
        return;
      case EveryDevice =>
        var _ := e.Allow(None);
      case OneRule(rule) =>
        ParsedRuleIsTyped(lines[i]);
        AllowNeverFails(e.State(), rule);
        AddedOrNothing(e.State(), rule);
        var _ := e.Allow(Some(rule));
    }
    if !scan.whole {
      err := Some(LineTooLong);
    }
  }

  // ----- round trip -----

  predicate PrintableNumber(n: int) {
    WILDCARD <= n <= MAX_UINT32
  }

  /** What a devices.list line can carry. */
  predicate Printable(e: DeviceRule) {
    PrintableNumber(e.meta.major) && PrintableNumber(e.meta.minor) && !IsEmpty(e.perms)
  }

  ghost predicate IsEntry(e: DeviceRule) {
    e.meta.node in {'b', 'c'} && IsValid(e.perms)
  }

  lemma NumberStringScans(n: int, rest: string)
    requires rest != "" && rest[0] in {':', ' '}
    ensures n >= WILDCARD ==>
              && NumberLength(NumberString(n) + rest) == |NumberString(n)|
              && IsNumber(NumberString(n))
              && Number(NumberString(n)) == (if n <= MAX_UINT32 then Some(n) else None)
    ensures n < WILDCARD ==> NumberLength(NumberString(n) + rest) == 0
  {
    var s := NumberString(n) + rest;
    if n >= 0 {
      SpanOfPrefix(Digits(n), rest, IsDigit);
      ValueOfDigits(n);
      assert IsDigit(s[0]);
      assert IsDigit(Digits(n)[0]) && Digits(n) != "*";
    } else if n < WILDCARD {
      assert s[0] == '-';
    }
  }

  lemma ValidPermsAreAccess(p: string)
    requires IsValid(p)
    ensures forall c <- p :: IsAccess(c)
    ensures Span(p, IsAccess) == |p|
  {
    assert forall c <- p :: IsAccess(c);
    SpanOfPrefix(p, "", IsAccess);
    assert p + "" == p;
  }

  /** The tail of a line after the major number, as the splitter sees it. */
  function Tail(e: DeviceRule): string {
    NumberString(e.meta.minor) + (" " + e.perms)
  }

  lemma SpaceThen(rest: string)
    requires rest == "" || !IsSpace(rest[0])
    ensures Span(" " + rest, IsSpace) == 1 && (" " + rest)[1..] == rest
  {
    SpanOfPrefix(" ", rest, IsSpace);
  }

  lemma NumberStringHead(n: int)
    ensures NumberString(n) != "" && !IsSpace(NumberString(n)[0]) && !IsAccess(NumberString(n)[0])
  {
    if n != WILDCARD && n >= 0 {
      assert IsDigit(Digits(n)[0]);
    }
  }

  lemma LineShape(e: DeviceRule)
    ensures LineOf(e) == [e.meta.node] + (" " + (NumberString(e.meta.major) + (":" + Tail(e))))
  {
  }

  /** What is left to split once the type and the blank are gone. */
  lemma SplitAfterType(node: char, s: string)
    requires node in {'a', 'b', 'c'} && s != "" && !IsSpace(s[0])
    ensures var k := NumberLength(s);
            Split([node] + (" " + s)) ==
            if k == 0 || k == |s| || s[k] != ':' || SplitTail(s[k + 1..]).None? then None
            else Some(Fields(node, s[..k], SplitTail(s[k + 1..]).value.0, SplitTail(s[k + 1..]).value.1))
  {
    hide NumberLength, Span, IsSpace, SplitTail, IsNumber;
    var line := [node] + (" " + s);
    assert line[1..] == " " + s;
    SpaceThen(s);
    assert line[2..] == s;
  }

  /** A printed entry splits into its own fields, unless a number is below the wildcard or it has no permissions. */
  lemma SplitOfLine(e: DeviceRule)
    requires CanCgroup(e.meta.node) && IsValid(e.perms)
    ensures Split(LineOf(e)) ==
            if e.meta.major >= WILDCARD && e.meta.minor >= WILDCARD && !IsEmpty(e.perms)
            then Some(Fields(e.meta.node, NumberString(e.meta.major), NumberString(e.meta.minor), e.perms))
            else None
  {
    hide NumberString, NumberLength, Span, IsSpace, IsValid, LineOf, Tail, Split, SplitTail, IsNumber;
    LineShape(e);
    var major, rest := NumberString(e.meta.major), ":" + Tail(e);
    var s := major + rest;
    NumberStringHead(e.meta.major);
    assert s[0] == major[0];
    SplitAfterType(e.meta.node, s);
    NumberStringScans(e.meta.major, rest);
    if e.meta.major >= WILDCARD {
      SplitOfTail(e);
      assert s[|major|] == ':' && s[..|major|] == major;
      assert s[|major| + 1..] == rest[1..] == Tail(e);
    }
  }

  lemma SplitOfTail(e: DeviceRule)
    requires IsValid(e.perms)
    ensures SplitTail(Tail(e)) ==
            if e.meta.minor >= WILDCARD && !IsEmpty(e.perms) then Some((NumberString(e.meta.minor), e.perms)) else None
  {
    hide NumberString, NumberLength, Span, IsNumber;
    NumberStringScans(e.meta.minor, " " + e.perms);
    NumberStringHead(e.meta.minor);
    ValidPermsAreAccess(e.perms);
    assert e.perms == "" || IsAccess(e.perms[0]);
    SpaceThen(e.perms);
    var j := |NumberString(e.meta.minor)|;
    assert Tail(e)[j..] == " " + e.perms && Tail(e)[..j] == NumberString(e.meta.minor);
  }

  /** A printed entry reads back as itself exactly when it is printable; otherwise the line is rejected. */
  lemma LineRoundTrip(e: DeviceRule)
    requires IsEntry(e)
    ensures Printable(e) ==> ParseLine(LineOf(e)) == OneRule(e)
    ensures !Printable(e) ==> ParseLine(LineOf(e)).Malformed?
  {
    hide NumberString, Split, LineOf;
    SplitOfLine(e);
    NumberStringScans(e.meta.major, ":");
    NumberStringScans(e.meta.minor, ":");
  }

  lemma OneLineConcat(a: string, b: string)
    requires OneLine(a) && OneLine(b)
    ensures OneLine(a + b)
  {
  }

  lemma EntryIsLine(e: DeviceRule)
    requires IsEntry(e)
    ensures CanCgroup(e.meta.node) && IsValid(e.perms)
  {
  }

  lemma LineIsOneLine(e: DeviceRule)
    requires CanCgroup(e.meta.node) && IsValid(e.perms)
    ensures OneLine(LineOf(e))
  {
    hide NumberString, LineOf, IsValid;
    LineShape(e);
    ValidPermsAreAccess(e.perms);
    assert OneLine(e.perms) && OneLine([e.meta.node]) && OneLine(" ") && OneLine(":");
    hide OneLine;
    NumberIsOneLine(e.meta.major);
    NumberIsOneLine(e.meta.minor);
    OneLineConcat(" ", e.perms);
    OneLineConcat(NumberString(e.meta.minor), " " + e.perms);
    OneLineConcat(":", Tail(e));
    OneLineConcat(NumberString(e.meta.major), ":" + Tail(e));
    OneLineConcat(" ", NumberString(e.meta.major) + (":" + Tail(e)));
    OneLineConcat([e.meta.node], " " + (NumberString(e.meta.major) + (":" + Tail(e))));
  }

  lemma NumberIsOneLine(n: int)
    ensures OneLine(NumberString(n))
  {
    if n >= 0 {
      assert AllDigits(Digits(n));
    } else if n < WILDCARD {
      assert AllDigits(Digits(-n));
    }
  }

  function LinesOf(es: seq<DeviceRule>): seq<string> {
    if es == [] then [] else [LineOf(es[0])] + LinesOf(es[1..])
  }

  /** `es` lists every entry of a table once, in any order. */
  ghost predicate Enumerates(es: seq<DeviceRule>, rules: map<DeviceMeta, string>) {
    && (forall i, j :: 0 <= i < j < |es| ==> es[i].meta != es[j].meta)
    && (forall e <- es :: e.meta in rules && rules[e.meta] == e.perms)
    && (forall m <- rules :: DeviceRule(m, rules[m]) in es)
  }

  /** What is loaded after the first entries have been read. */
  ghost predicate LoadedSoFar(s: Ruleset, es: seq<DeviceRule>, k: nat) {
    && k <= |es|
    && !s.defaultAllow
    && (forall i :: 0 <= i < k ==> es[i].meta in s.rules && s.rules[es[i].meta] == es[i].perms)
    && (forall i :: k <= i < |es| ==> es[i].meta !in s.rules)
    && (forall m <- s.rules :: exists i :: 0 <= i < k && es[i].meta == m)
  }

  lemma AddedToNothing(s: Ruleset, e: DeviceRule)
    requires IsEntry(e) && e.meta !in s.rules
    ensures Added(s, e).rules == s.rules[e.meta := e.perms]
  {
    OperationsAreSetOperations(e.perms, "");
    ValidIsDeterminedByMask(Union(e.perms, ""), e.perms);
  }

  lemma LoadStep(s: Ruleset, es: seq<DeviceRule>, k: nat)
    requires forall i, j :: 0 <= i < j < |es| ==> es[i].meta != es[j].meta
    requires k < |es| && IsEntry(es[k]) && LoadedSoFar(s, es, k)
    ensures LoadedSoFar(Added(s, es[k]), es, k + 1)
  {
    hide Permissions.Union, IsEntry;
    AddedToNothing(s, es[k]);
    var s' := Added(s, es[k]);
    forall m | m in s'.rules ensures exists i :: 0 <= i < k + 1 && es[i].meta == m {
      if m == es[k].meta {
        assert 0 <= k < k + 1 && es[k].meta == m;
      } else {
        assert m in s.rules;
      }
    }
  }

  lemma LinesOfAt(es: seq<DeviceRule>, k: nat)
    requires k < |es|
    ensures LinesOf(es[k..]) == [LineOf(es[k])] + LinesOf(es[k + 1..])
  {
    assert es[k..][1..] == es[k + 1..];
  }

  lemma {:induction false} LoadPrinted(s: Ruleset, es: seq<DeviceRule>, k: nat)
    requires forall i, j :: 0 <= i < j < |es| ==> es[i].meta != es[j].meta
    requires forall i :: k <= i < |es| ==> IsEntry(es[i])
    requires LoadedSoFar(s, es, k)
    ensures var r := LoadLines(s, LinesOf(es[k..]));
            && (r.Loaded? <==> forall i :: k <= i < |es| ==> Printable(es[i]))
            && (r.Loaded? ==> LoadedSoFar(r.state, es, |es|))
    decreases |es| - k
  {
    if k < |es| {
      LinesOfAt(es, k);
      LineRoundTrip(es[k]);
      var line, rest := LineOf(es[k]), LinesOf(es[k + 1..]);
      assert ([line] + rest)[1..] == rest;
      LoadLinesStep(s, line, rest);
      if Printable(es[k]) {
        LoadStep(s, es, k);
        LoadPrinted(Added(s, es[k]), es, k + 1);
      }
    }
  }

  lemma LoadLinesStep(s: Ruleset, line: string, rest: seq<string>)
    requires !s.defaultAllow
    ensures ParseLine(line).Malformed? ==> LoadLines(s, [line] + rest).Unreadable?
    ensures ParseLine(line).OneRule? ==> LoadLines(s, [line] + rest) == LoadLines(Added(s, ParseLine(line).rule), rest)
  {
    hide ParseLine, Added;
    assert ([line] + rest)[0] == line && ([line] + rest)[1..] == rest;
  }

  lemma LoadedAll(s: Ruleset, es: seq<DeviceRule>, rules: map<DeviceMeta, string>)
    requires LoadedSoFar(s, es, |es|) && Enumerates(es, rules)
    ensures s == Ruleset(false, rules)
  {
    forall m ensures m in s.rules <==> m in rules {
      if m in rules {
        assert DeviceRule(m, rules[m]) in es;
      }
    }
    assert s.rules == rules;
  }

  lemma EntriesOf(s: Ruleset, es: seq<DeviceRule>)
    requires WellFormed(s) && Enumerates(es, s.rules)
    ensures forall e <- es :: IsEntry(e)
    ensures LoadedSoFar(EMPTY, es, 0)
    ensures forall i, j :: 0 <= i < j < |es| ==> es[i].meta != es[j].meta
  {
  }

  /**
   * Printing the exceptions of a white-list, one line each in any order, and loading the text gives back the
   * same table, exactly when every exception has some permission and numbers that are wildcards or 32-bit.
   */
  lemma ListRoundTrip(s: Ruleset, es: seq<DeviceRule>)
    requires WellFormed(s) && !s.defaultAllow && Enumerates(es, s.rules)
    ensures FromList(Unlines(LinesOf(es))) == Loaded(s) <==> forall e <- es :: Printable(e)
    ensures FromList(Unlines(LinesOf(es))).Loaded? <==> forall e <- es :: Printable(e)
  {
    hide WellFormed, Enumerates, LoadedSoFar, IsEntry, Printable, LinesOf, ScanLines, Unlines, LoadLines;
    EntriesOf(s, es);
    PrintedLines(es);
    ScanOfUnlines(LinesOf(es));
    assert es[0..] == es;
    LoadPrinted(EMPTY, es, 0);
    var r := LoadLines(EMPTY, LinesOf(es));
    if r.Loaded? {
      LoadedAll(r.state, es, s.rules);
    }
  }

  lemma {:induction false} PrintedLines(es: seq<DeviceRule>)
    requires forall e <- es :: IsEntry(e)
    ensures forall l <- LinesOf(es) :: OneLine(l)
    ensures (forall e <- es :: Printable(e)) ==> forall l <- LinesOf(es) :: |l| <= MAX_LINE
  {
    hide LineOf, OneLine, IsEntry, Printable;
    if es != [] {
      PrintedLines(es[1..]);
      EntryIsLine(es[0]);
      LineIsOneLine(es[0]);
      assert es[0] in es;
      if Printable(es[0]) {
        PrintableIsShort(es[0]);
      }
    }
  }

  lemma PrintableIsShort(e: DeviceRule)
    requires IsValid(e.perms) && Printable(e)
    ensures |LineOf(e)| <= MAX_LINE
  {
    hide FormatInt;
    FormatLength(e.meta.major);
    FormatLength(e.meta.minor);
    assert |e.perms| <= 3;
  }
}
