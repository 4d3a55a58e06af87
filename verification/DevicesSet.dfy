/**
 * Setting a devices cgroup against a kernel that, as the source says of it, silently ignores a request to punch a
 * hole into a wildcard exception. The final comparison is then what finds out.
 */
module DevicesSet {
  import opened Permissions
  import opened DeviceEmulator
  import opened DeviceTransition
  import opened Decimal
  import opened DevicesList
  import opened DevicesGroup

  /** What the kernel makes of one rule that is written to it. */
  function Written(s: Ruleset, rule: Rule): Ruleset {
    var r := ApplyRule(s, rule);
    if r.Applied? then r.state else s
  }

  function WrittenAll(s: Ruleset, rules: seq<Rule>): Ruleset
    decreases |rules|
  {
    if rules == [] then s else WrittenAll(Written(s, rules[0]), rules[1..])
  }

  lemma {:induction false} WrittenIsReplayed(s: Ruleset, rules: seq<Rule>)
    requires Replay(s, rules).Applied?
    ensures WrittenAll(s, rules) == Replay(s, rules).state
    decreases |rules|
  {
    hide ApplyRule;
    if rules != [] {
      WrittenIsReplayed(ApplyRule(s, rules[0]).state, rules[1..]);
    }
  }

  lemma {:induction false} WrittenIsWellFormed(s: Ruleset, rules: seq<Rule>)
    requires WellFormed(s)
    ensures WellFormed(WrittenAll(s, rules))
    decreases |rules|
  {
    hide ApplyRule, WellFormed;
    if rules != [] {
      ApplyKeepsWellFormed(s, rules[0]);
      WrittenIsWellFormed(Written(s, rules[0]), rules[1..]);
    }
  }

  /** Without a reset and without a rule that denies `m`, its permissions only grow, whatever is ignored. */
  lemma {:induction false} WrittenKeeps(s: Ruleset, rules: seq<Rule>, m: DeviceMeta)
    requires !s.defaultAllow && NoReset(rules)
    ensures !WrittenAll(s, rules).defaultAllow
    ensures (m, false) !in Touched(rules) ==> s.MaskAt(m).Within(WrittenAll(s, rules).MaskAt(m))
    decreases |rules|
  {
    if rules != [] {
      var r := rules[0];
      assert r in rules && (MetaOf(r), r.allow) in Touched(rules);
      WrittenOnce(s, r, m);
      hide ApplyRule, Written;
      WrittenKeeps(Written(s, r), rules[1..], m);
      assert forall t :: t in Touched(rules[1..]) ==> t in Touched(rules);
    }
  }

  lemma WrittenOnce(s: Ruleset, r: Rule, m: DeviceMeta)
    requires !s.defaultAllow && r.node != 'a'
    ensures !Written(s, r).defaultAllow
    ensures (MetaOf(r), r.allow) != (m, false) ==> s.MaskAt(m).Within(Written(s, r).MaskAt(m))
  {
    hide FirstBlock, Union, Difference;
    var inner := DeviceRule(MetaOf(r), r.perms);
    AddedMask(s, inner, m);
    RemovedMask(s, inner, m);
  }

  /** No two rules of a list are for the same pattern if the list is as long as what it touches. */
  lemma TouchedOnce(rules: seq<Rule>, i: nat, j: nat)
    requires |Touched(rules)| == |rules| && i < |rules| && j < |rules| && i != j
    ensures (MetaOf(rules[i]), rules[i].allow) != (MetaOf(rules[j]), rules[j].allow)
  {
    var others := rules[..j] + rules[j + 1..];
    TouchedIsNoLonger(others);
    if (MetaOf(rules[i]), rules[i].allow) == (MetaOf(rules[j]), rules[j].allow) {
      assert rules[i] in others by {
        assert others[if i < j then i else i - 1] == rules[i];
      }
      forall t | t in Touched(rules)
        ensures t in Touched(others)
      {
        var r :| r in rules && t == (MetaOf(r), r.allow);
        assert r in others || r == rules[j];
      }
      SubsetIsSmaller(Touched(rules), Touched(others));
    }
  }

  lemma {:induction false} WrittenConcat(s: Ruleset, a: seq<Rule>, b: seq<Rule>)
    ensures WrittenAll(s, a + b) == WrittenAll(WrittenAll(s, a), b)
    decreases |a|
  {
    hide Written;
    if a == [] {
      assert a + b == b;
    } else {
      assert (a + b)[1..] == a[1..] + b;
      WrittenConcat(Written(s, a[0]), a[1..], b);
    }
  }

  /** The first rule that the emulator refuses, and the state it meets. */
  lemma {:induction false} FirstRefusal(s: Ruleset, rules: seq<Rule>) returns (i: nat)
    requires Replay(s, rules).Rejected?
    ensures i < |rules| && ApplyRule(WrittenAll(s, rules[..i]), rules[i]).Rejected?
    decreases |rules|
  {
    hide ApplyRule;
    if ApplyRule(s, rules[0]).Rejected? {
      i := 0;
      assert rules[..0] == [];
    } else {
      var k := FirstRefusal(ApplyRule(s, rules[0]).state, rules[1..]);
      i := k + 1;
      assert rules[..i][1..] == rules[1..][..k];
    }
  }

  /** Every rule of the first pass is a denial, for a pattern that loses something. */
  lemma DropsAreDenials(source: Ruleset, target: Ruleset, r: Rule)
    requires WhiteLists(source, target) && r in Drops(source, target)
    ensures !r.allow && r.node in {'b', 'c'} && !source.MaskAt(MetaOf(r)).Within(target.MaskAt(MetaOf(r)))
  {
    var es := Ordered(source.rules);
    DropRulesTouch(es, target);
    hide Ordered, DropRules, Permissions.FromSet;
    assert (MetaOf(r), r.allow) in Touched(Drops(source, target));
    var e :| e in es && e.meta == MetaOf(r) && Drop(e, target) != [];
    OperationsAreSetOperations(e.perms, target.PermsOf(e.meta));
  }

  lemma GainsAreGrants(source: Ruleset, target: Ruleset, r: Rule)
    requires WhiteLists(source, target) && r in Gains(source, target)
    ensures r.allow && r.node in {'b', 'c'}
  {
    var es := Ordered(target.rules);
    GainRulesTouch(es, source, target);
    hide Ordered, GainRules, Permissions.FromSet;
    assert (MetaOf(r), r.allow) in Touched(Gains(source, target));
    var e :| e in es && e.meta == MetaOf(r) && Gain(e, source, target) != [];
  }

  lemma DropsTouchOnce(source: Ruleset, target: Ruleset)
    requires WhiteLists(source, target)
    ensures |Touched(Drops(source, target))| == |Drops(source, target)|
  {
    DropRulesTouch(Ordered(source.rules), target);
  }

  lemma PlanHasNoReset(source: Ruleset, target: Ruleset)
    requires WhiteLists(source, target)
    ensures TransitionRules(source, target) == Drops(source, target) + Gains(source, target)
    ensures NoReset(TransitionRules(source, target))
  {
    hide Drops, Gains, TransitionRules;
    WhiteListPlan(source, target);
    var plan := TransitionRules(source, target);
    forall r | r in plan
      ensures r.node != 'a'
    {
      if r in Drops(source, target) {
        DropsAreDenials(source, target, r);
      } else {
        GainsAreGrants(source, target, r);
      }
    }
  }

  /** A denial of the plan is the only one for its pattern. */
  lemma OneDenial(source: Ruleset, target: Ruleset, i: nat)
    requires WhiteLists(source, target) && i < |TransitionRules(source, target)| &&
             !TransitionRules(source, target)[i].allow
    ensures var plan := TransitionRules(source, target);
            && plan[i] in Drops(source, target)
            && (MetaOf(plan[i]), false) !in Touched(plan[..i])
            && (MetaOf(plan[i]), false) !in Touched(plan[i + 1..])
  {
    hide Drops, Gains, TransitionRules;
    PlanHasNoReset(source, target);
    DropsTouchOnce(source, target);
    var drops, gains, plan := Drops(source, target), Gains(source, target), TransitionRules(source, target);
    if i >= |drops| {
      GainsAreGrants(source, target, plan[i]);
    }
    forall j | 0 <= j < |plan| && j != i
      ensures (MetaOf(plan[j]), plan[j].allow) != (MetaOf(plan[i]), false)
    {
      if j < |drops| {
        TouchedOnce(drops, i, j);
      } else {
        GainsAreGrants(source, target, plan[j]);
      }
    }
  }

  lemma GrantsAreTaken(s: Ruleset, r: Rule)
    requires !s.defaultAllow && r.node in {'b', 'c'} && r.allow
    ensures ApplyRule(s, r).Applied?
  {
  }

  /** An ignored rule is as good as not there. */
  lemma IgnoredIsSkipped(s: Ruleset, rules: seq<Rule>, i: nat)
    requires i < |rules| && ApplyRule(WrittenAll(s, rules[..i]), rules[i]).Rejected?
    ensures WrittenAll(s, rules) == WrittenAll(WrittenAll(s, rules[..i]), rules[i + 1..])
  {
    hide ApplyRule;
    var before, rest := rules[..i], rules[i..];
    assert rules == before + rest;
    WrittenConcat(s, before, rest);
    assert rest[0] == rules[i] && rest[1..] == rules[i + 1..];
  }

  /** Only denials are refused. */
  lemma RefusedIsDenial(source: Ruleset, target: Ruleset, r: Rule, s: Ruleset)
    requires WhiteLists(source, target) && r in TransitionRules(source, target)
    requires !s.defaultAllow && ApplyRule(s, r).Rejected?
    ensures !r.allow
  {
    hide TransitionRules, Drops, Gains, ApplyRule;
    PlanHasNoReset(source, target);
    if r in Drops(source, target) {
      DropsAreDenials(source, target, r);
    } else {
      GainsAreGrants(source, target, r);
      GrantsAreTaken(s, r);
    }
  }

  lemma NoResetParts(rules: seq<Rule>, i: nat)
    requires NoReset(rules) && i < |rules|
    ensures NoReset(rules[..i]) && NoReset(rules[i + 1..])
  {
  }

  /** A rule that is ignored shows: its pattern ends with a permission that the target does not have. */
  lemma IgnoredRuleShows(source: Ruleset, target: Ruleset) returns (m: DeviceMeta)
    requires WhiteLists(source, target) && Replay(source, TransitionRules(source, target)).Rejected?
    ensures !WrittenAll(source, TransitionRules(source, target)).MaskAt(m).Within(target.MaskAt(m))
  {
    hide TransitionRules, Drops, Gains, Replay, ApplyRule, WrittenAll, WellFormed, NoReset, Touched;
    var plan := TransitionRules(source, target);
    PlanHasNoReset(source, target);
    var i := FirstRefusal(source, plan);
    m := MetaOf(plan[i]);
    NoResetParts(plan, i);
    WrittenKeeps(source, plan[..i], m);
    RefusedIsDenial(source, target, plan[i], WrittenAll(source, plan[..i]));
    OneDenial(source, target, i);
    DropsAreDenials(source, target, plan[i]);
    IgnoredIsSkipped(source, plan, i);
    WrittenKeeps(WrittenAll(source, plan[..i]), plan[i + 1..], m);
  }

  // ----- when setting succeeds -----

  /** Some pattern loses a permission that a strictly wider pattern keeps. */
  ghost predicate NeedsHole(source: Ruleset, target: Ruleset) {
    exists m, w ::
      m in source.rules && StrictlyWider(w, m) && Dropped(source, target, m).Overlaps(Kept(source, target, w))
  }

  ghost predicate LoadedNumbers(s: Ruleset) {
    forall m <- s.rules :: m.major >= WILDCARD && m.minor >= WILDCARD
  }

  lemma ParsedNumbers(line: string)
    requires ParseLine(line).OneRule?
    ensures ParseLine(line).rule.meta.major >= WILDCARD && ParseLine(line).rule.meta.minor >= WILDCARD
  {
    hide Split;
  }

  lemma {:induction false} LoadKeepsNumbers(s: Ruleset, lines: seq<string>)
    requires LoadedNumbers(s) && LoadLines(s, lines).Loaded?
    ensures LoadedNumbers(LoadLines(s, lines).state)
    decreases |lines|
  {
    hide ParseLine, Union, Difference;
    if lines != [] {
      match ParseLine(lines[0])
      case Malformed(e) =>
      case EveryDevice =>
        LoadKeepsNumbers(Ruleset(true, map[]), lines[1..]);
      case OneRule(rule) =>
        ParsedNumbers(lines[0]);
        LoadKeepsNumbers(if s.defaultAllow then Removed(s, rule) else Added(s, rule), lines[1..]);
    }
  }

  /** A cgroup whose devices.list is `text`: a white-list as listed, or a black-list with unlisted exceptions. */
  ghost predicate Behind(kernel: Ruleset, text: string) {
    && FromList(text).Loaded?
    && (if FromList(text).state.defaultAllow then kernel.defaultAllow else kernel == FromList(text).state)
  }

  /** The cgroup once the plan has been written. */
  ghost function Final(kernel: Ruleset, text: string, rules: seq<Rule>): Ruleset
    requires FromList(text).Loaded? && Replay(EMPTY, rules).Applied?
  {
    WrittenAll(kernel, TransitionRules(FromList(text).state, Target(rules)))
  }

  /** Unlisted exceptions make no difference to what is written. */
  lemma FinalIsPlanned(kernel: Ruleset, text: string, rules: seq<Rule>)
    requires Behind(kernel, text) && Replay(EMPTY, rules).Applied? && WellFormed(Target(rules))
    ensures Final(kernel, text, rules) == Final(FromList(text).state, text, rules)
  {
    hide FromList, Replay, WrittenAll, Ordered, GainRules;
    var source, target := FromList(text).state, Target(rules);
    if source.defaultAllow {
      PlanAfterReset(source, target);
      WrittenAfterReset(kernel, source, target);
    }
  }

  lemma WrittenAfterReset(kernel: Ruleset, source: Ruleset, target: Ruleset)
    requires source.defaultAllow
    ensures WrittenAll(kernel, TransitionRules(source, target)) == WrittenAll(source, TransitionRules(source, target))
  {
    hide Ordered, GainRules;
    PlanAfterReset(source, target);
    var plan := TransitionRules(source, target);
    assert plan[0] == ResetRule(target);
    hide TransitionRules;
    assert Written(kernel, plan[0]) == Written(source, plan[0]);
  }

  /**
   * Exactly when setting a white-list succeeds, from the list that is loaded and the rules that are asked for: no
   * hole has to be punched into an exception that stays, every exception asked for grants something, and an empty
   * table was never allocated. A loaded black-list is reset, so no hole arises and its unlisted exceptions are gone.
   */
  lemma SetSucceedsExactly(kernel: Ruleset, text: string, rules: seq<Rule>, es: seq<DeviceRule>)
    requires Behind(kernel, text) && Replay(EMPTY, rules).Applied?
    requires !Target(rules).defaultAllow && Writable(Target(rules))
    requires Enumerates(es, Final(kernel, text, rules).rules)
    ensures ReadBackPasses(Unlines(LinesOf(es)), rules) <==>
            && (kernel.defaultAllow || !NeedsHole(kernel, Target(rules)))
            && AllGrant(Target(rules))
            && (Target(rules).rules == map[] ==> !MadeAfter(EMPTY, false, rules))
  {
    hide FromList, Replay, TransitionRules, Unlines, LinesOf, WrittenAll, Writable, AllGrant, MadeAfter, Enumerates,
      NeedsHole, WellFormed, Clean, CheckPasses;
    var source, target := FromList(text).state, Target(rules);
    LoadedSource(text);
    EmptyIsWellFormed();
    ReplayKeepsWellFormed(EMPTY, rules);
    FinalIsPlanned(kernel, text, rules);
    RefusalIsHole(text, target);
    if Planned(text, target).Applied? {
      WrittenIsReplayed(source, TransitionRules(source, target));
      SetReadsBackTarget(text, rules, es);
    } else {
      NotReadBack(text, rules, es);
    }
  }

  lemma RefusalIsHole(text: string, target: Ruleset)
    requires FromList(text).Loaded? && WellFormed(target) && !target.defaultAllow
    ensures Planned(text, target).Applied? <==>
            FromList(text).state.defaultAllow || !NeedsHole(FromList(text).state, target)
  {
    hide FromList, Replay, TransitionRules, WellFormed, Clean, LoadLines;
    var source := FromList(text).state;
    LoadedSource(text);
    SourceNumbers(text);
    if source.defaultAllow {
      ReplayReachesTarget(source, target);
    } else {
      assert WhiteLists(source, target);
      WhiteListReplayCondition(source, target);
    }
  }

  lemma SourceNumbers(text: string)
    requires FromList(text).Loaded?
    ensures LoadedNumbers(FromList(text).state)
  {
    hide LoadLines, ScanLines;
    LoadKeepsNumbers(EMPTY, ScanLines(text).lines);
  }

  lemma NotReadBack(text: string, rules: seq<Rule>, es: seq<DeviceRule>)
    requires FromList(text).Loaded? && Replay(EMPTY, rules).Applied? && !Target(rules).defaultAllow
    requires Planned(text, Target(rules)).Rejected? && Enumerates(es, Final(FromList(text).state, text, rules).rules)
    requires WellFormed(FromList(text).state) && WellFormed(Target(rules))
    ensures !ReadBackPasses(Unlines(LinesOf(es)), rules)
  {
    hide FromList, Replay, TransitionRules, Unlines, LinesOf, WrittenAll, Enumerates, WellFormed, LoadLines, Printable,
      MadeAfter;
    var source, target := FromList(text).state, Target(rules);
    var plan, final := TransitionRules(source, target), Final(source, text, rules);
    ReplayReachesTarget(source, target);
    assert WhiteLists(source, target);
    var m := IgnoredRuleShows(source, target);
    PlanHasNoReset(source, target);
    WrittenKeeps(source, plan, m);
    WrittenIsWellFormed(source, plan);
    ListRoundTrip(final, es);
  }
}
