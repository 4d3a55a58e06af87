/**
 * Updating a devices cgroup end to end: read devices.list, plan, write the rules, read devices.list again and
 * compare with the target. The kernel is taken to apply rules as the emulator does and to list its exceptions
 * one per line in some order.
 */
module DevicesGroup {
  import opened Wrappers
  import opened Permissions
  import opened DeviceEmulator
  import opened DeviceTransition
  import opened Decimal
  import opened DevicesList

  ghost predicate NoEmptyEntry(s: Ruleset) {
    forall m <- s.rules :: !s.MaskAt(m).IsNone()
  }

  ghost predicate HasAccess(rules: seq<Rule>) {
    forall r <- rules :: r.node == 'a' || !MaskOf(r.perms).IsNone()
  }

  lemma ApplyKeepsNoEmptyEntry(s: Ruleset, rule: Rule)
    requires NoEmptyEntry(s) && HasAccess([rule]) && ApplyRule(s, rule).Applied?
    ensures NoEmptyEntry(ApplyRule(s, rule).state)
  {
    hide Permissions.FromSet, FirstBlock;
    assert rule in [rule];
    var inner := DeviceRule(MetaOf(rule), rule.perms);
    var s' := ApplyRule(s, rule).state;
    OperationsAreSetOperations(s.PermsOf(inner.meta), rule.perms);
    forall m | m in s'.rules ensures !s'.MaskAt(m).IsNone() {
      AddedMask(s, inner, m);
      RemovedMask(s, inner, m);
      ValidIsDeterminedByMask(Difference(s.PermsOf(inner.meta), rule.perms),
                              Difference(s.PermsOf(inner.meta), rule.perms));
    }
  }

  lemma {:induction false} ReplayKeepsNoEmptyEntry(s: Ruleset, rules: seq<Rule>)
    requires NoEmptyEntry(s) && HasAccess(rules) && Replay(s, rules).Applied?
    ensures NoEmptyEntry(Replay(s, rules).state)
    decreases |rules|
  {
    hide ApplyRule, NoEmptyEntry;
    if rules != [] {
      assert rules[0] in rules;
      ApplyKeepsNoEmptyEntry(s, rules[0]);
      ReplayKeepsNoEmptyEntry(ApplyRule(s, rules[0]).state, rules[1..]);
    }
  }

  lemma RuleForHasAccess(m: DeviceMeta, p: string, o: string, allow: bool)
    ensures HasAccess(RuleFor(m, Difference(p, o), allow))
  {
    hide Permissions.FromSet;
    OperationsAreSetOperations(p, o);
    ValidIsDeterminedByMask(Difference(p, o), Difference(p, o));
  }

  lemma {:induction false} DropsHaveAccess(es: seq<DeviceRule>, target: Ruleset)
    ensures HasAccess(DropRules(es, target))
  {
    if es != [] {
      hide Permissions.Difference, RuleFor;
      DropsHaveAccess(es[1..], target);
      RuleForHasAccess(es[0].meta, es[0].perms, target.PermsOf(es[0].meta), target.defaultAllow);
    }
  }

  lemma {:induction false} GainsHaveAccess(es: seq<DeviceRule>, base: Ruleset, target: Ruleset)
    ensures HasAccess(GainRules(es, base, target))
  {
    if es != [] {
      hide Permissions.Difference, RuleFor;
      GainsHaveAccess(es[1..], base, target);
      RuleForHasAccess(es[0].meta, es[0].perms, base.PermsOf(es[0].meta), !target.defaultAllow);
    }
  }

  /** No planned rule is empty. */
  lemma PlanHasAccess(source: Ruleset, target: Ruleset)
    ensures HasAccess(TransitionRules(source, target))
  {
    hide Ordered, DropRules, GainRules;
    DropsHaveAccess(Ordered(Base(source, target).rules), target);
    GainsHaveAccess(Ordered(target.rules), Base(source, target), target);
  }

  ghost predicate Clean(s: Ruleset) {
    WellFormed(s) && NoEmptyEntry(s)
  }

  lemma LoadOneIsClean(s: Ruleset, line: string)
    requires Clean(s) && ParseLine(line).OneRule?
    ensures var rule := ParseLine(line).rule;
            Clean(if s.defaultAllow then Removed(s, rule) else Added(s, rule))
  {
    var rule := ParseLine(line).rule;
    ParsedIsEntry(line);
    hide ParseLine, Permissions.FromSet, FirstBlock;
    ValidIsDeterminedByMask(rule.perms, "");
    if s.defaultAllow {
      OperationsAreSetOperations(s.PermsOf(rule.meta), rule.perms);
      UpdateKeepsWellFormed(s, rule.meta, Difference(s.PermsOf(rule.meta), rule.perms));
      ValidIsDeterminedByMask(Difference(s.PermsOf(rule.meta), rule.perms), "");
      forall m | m in Removed(s, rule).rules ensures !Removed(s, rule).MaskAt(m).IsNone() {
        RemovedMask(s, rule, m);
      }
    } else {
      OperationsAreSetOperations(rule.perms, s.PermsOf(rule.meta));
      UpdateKeepsWellFormed(s, rule.meta, Union(rule.perms, s.PermsOf(rule.meta)));
      forall m | m in Added(s, rule).rules ensures !Added(s, rule).MaskAt(m).IsNone() {
        AddedMask(s, rule, m);
      }
    }
  }

  lemma ParsedIsEntry(line: string)
    requires ParseLine(line).OneRule?
    ensures IsEntry(ParseLine(line).rule) && !IsEmpty(ParseLine(line).rule.perms)
  {
    hide Number, SplitTail;
  }

  /** Whatever text is loaded, the result is well formed and has no exception without permissions. */
  lemma {:induction false} LoadIsClean(s: Ruleset, lines: seq<string>)
    requires Clean(s) && LoadLines(s, lines).Loaded?
    ensures Clean(LoadLines(s, lines).state)
    decreases |lines|
  {
    hide ParseLine, Clean, Added, Removed;
    if lines != [] {
      match ParseLine(lines[0])
      case Malformed(e) =>
      case EveryDevice =>
        EmptyIsClean(true);
        LoadIsClean(Ruleset(true, map[]), lines[1..]);
      case OneRule(rule) =>
        LoadOneIsClean(s, lines[0]);
        LoadIsClean(if s.defaultAllow then Removed(s, rule) else Added(s, rule), lines[1..]);
    }
  }

  lemma EmptyIsClean(allow: bool)
    ensures Clean(Ruleset(allow, map[]))
  {
  }

  function WithoutEmpty(rules: map<DeviceMeta, string>): map<DeviceMeta, string> {
    map m | m in rules && !IsEmpty(rules[m]) :: rules[m]
  }

  lemma ReplayedTable(final: Ruleset, target: Ruleset)
    requires Clean(final) && WellFormed(target)
    requires forall m :: final.PermsOf(m) == target.PermsOf(m)
    ensures final.rules == WithoutEmpty(target.rules)
  {
    forall m ensures m in final.rules <==> m in WithoutEmpty(target.rules) {
      assert final.PermsOf(m) == target.PermsOf(m);
    }
    forall m | m in final.rules ensures final.rules[m] == WithoutEmpty(target.rules)[m] {
      assert final.PermsOf(m) == target.PermsOf(m);
    }
  }

  // ----- the target -----

  /** The emulator of the rules a caller asks for. */
  method BuildEmulator(rules: seq<Rule>) returns (e: Emulator, err: Option<RuleError>)
    ensures match Replay(EMPTY, rules)
            case Applied(s) => err == None && e.State() == s && e.made == MadeAfter(EMPTY, false, rules)
            case Rejected(x) => err == Some(x)
  {
    hide ApplyRule;
    e := new Emulator();
    err := None;
    for i := 0 to |rules|
      invariant fresh(e) && err == None
      invariant Replay(EMPTY, rules) == Replay(e.State(), rules[i..])
      invariant MadeAfter(EMPTY, false, rules) == MadeAfter(e.State(), e.made, rules[i..])
    {
      assert rules[i..][0] == rules[i] && rules[i..][1..] == rules[i + 1..];
      err := e.Apply(rules[i]);
      if err != None {
        return;
      }
    }
  }

  /** A table with entries has been allocated. */
  lemma {:induction false} EntriesAreMade(s: Ruleset, made: bool, rules: seq<Rule>)
    requires (s.rules != map[] ==> made) && Replay(s, rules).Applied?
    ensures Replay(s, rules).state.rules != map[] ==> MadeAfter(s, made, rules)
    decreases |rules|
  {
    hide ApplyRule;
    if rules != [] {
      ApplyMakes(s, made, rules[0]);
      EntriesAreMade(ApplyRule(s, rules[0]).state, MadeBy(s, made, InnerRule(rules[0]), rules[0].allow), rules[1..]);
    }
  }

  lemma ApplyMakes(s: Ruleset, made: bool, rule: Rule)
    requires (s.rules != map[] ==> made) && ApplyRule(s, rule).Applied?
    ensures ApplyRule(s, rule).state.rules != map[] ==> MadeBy(s, made, InnerRule(rule), rule.allow)
  {
    hide FirstBlock, Union, Difference;
    if rule.node != 'a' {
      AddedOrNothing(s, InnerRule(rule).value);
    }
  }

  // ----- the final check -----

  /** A deep comparison: equal contents, and both tables allocated or neither. */
  predicate SameEmulator(a: Ruleset, aMade: bool, b: Ruleset, bMade: bool) {
    a == b && aMade == bMade
  }

  /** White-lists are compared as a whole, black-lists by their mode only. */
  predicate CheckPasses(after: Ruleset, afterMade: bool, target: Ruleset, targetMade: bool) {
    if !target.defaultAllow then SameEmulator(after, afterMade, target, targetMade)
    else after.defaultAllow == target.defaultAllow
  }

  /** The numbers of every exception that grants something can be printed. */
  ghost predicate Writable(target: Ruleset) {
    forall m <- target.rules ::
      !IsEmpty(target.rules[m]) ==> PrintableNumber(m.major) && PrintableNumber(m.minor)
  }

  /** Every exception grants something. */
  ghost predicate AllGrant(target: Ruleset) {
    forall m <- target.rules :: !IsEmpty(target.rules[m])
  }

  /** The state that a caller's rules ask for. */
  function Target(rules: seq<Rule>): Ruleset
    requires Replay(EMPTY, rules).Applied?
  {
    Replay(EMPTY, rules).state
  }

  /** The outcome of applying the plan to a loaded list. */
  ghost function Planned(text: string, target: Ruleset): Outcome
    requires FromList(text).Loaded?
  {
    Replay(FromList(text).state, TransitionRules(FromList(text).state, target))
  }

  /** The final check on a list read back. */
  predicate ReadBackPasses(text: string, rules: seq<Rule>)
    requires Replay(EMPTY, rules).Applied?
  {
    var after := FromList(text);
    && after.Loaded?
    && CheckPasses(after.state, after.state.rules != map[], Target(rules), MadeAfter(EMPTY, false, rules))
  }

  /**
   * A white-list asked for by rules whose numbers can be printed, when no write is refused: the list read back is
   * the target without its permission-less exceptions, and the final check passes exactly when the target has none
   * and its table, if empty, was never allocated.
   */
  lemma SetReadsBackTarget(text: string, rules: seq<Rule>, es: seq<DeviceRule>)
    requires FromList(text).Loaded? && Replay(EMPTY, rules).Applied? && !Target(rules).defaultAllow
    requires Planned(text, Target(rules)).Applied? && Writable(Target(rules))
    requires Enumerates(es, Planned(text, Target(rules)).state.rules)
    ensures FromList(Unlines(LinesOf(es))) == Loaded(Ruleset(false, WithoutEmpty(Target(rules).rules)))
    ensures ReadBackPasses(Unlines(LinesOf(es)), rules) <==>
            AllGrant(Target(rules)) && (Target(rules).rules == map[] ==> !MadeAfter(EMPTY, false, rules))
  {
    hide Replay, FromList, TransitionRules, Unlines, LinesOf, Writable, AllGrant, CheckPasses, Enumerates, MadeAfter;
    var target := Target(rules);
    EmptyIsWellFormed();
    ReplayKeepsWellFormed(EMPTY, rules);
    ReadBack(text, target, es);
    EntriesAreMade(EMPTY, false, rules);
    CheckOf(Ruleset(false, WithoutEmpty(target.rules)), target, MadeAfter(EMPTY, false, rules));
  }

  lemma EmptyIsWellFormed()
    ensures WellFormed(EMPTY) && EMPTY.rules == map[]
  {
  }

  lemma CheckOf(after: Ruleset, target: Ruleset, made: bool)
    requires !target.defaultAllow && after == Ruleset(false, WithoutEmpty(target.rules)) &&
             (target.rules != map[] ==> made)
    ensures CheckPasses(after, after.rules != map[], target, made) <==>
            AllGrant(target) && (target.rules == map[] ==> !made)
  {
    hide IsEmpty;
    WithoutEmptyIsAll(target);
  }

  lemma ReadBack(text: string, target: Ruleset, es: seq<DeviceRule>)
    requires FromList(text).Loaded?
    requires WellFormed(target) && !target.defaultAllow && Writable(target)
    requires Planned(text, target).Applied? && Enumerates(es, Planned(text, target).state.rules)
    ensures FromList(Unlines(LinesOf(es))) == Loaded(Ruleset(false, WithoutEmpty(target.rules)))
  {
    hide Replay, FromList, TransitionRules, Unlines, LinesOf, Writable, Clean, WellFormed, Enumerates, Printable;
    var source := FromList(text).state;
    LoadedSource(text);
    ReplayReachesTarget(source, target);
    var final := Replay(source, TransitionRules(source, target)).state;
    FinalIsClean(source, target);
    ReplayedTable(final, target);
    FinalIsPrintable(final, target, es);
    FinalIsWellFormed(final);
    ListRoundTrip(final, es);
  }

  lemma LoadedSource(text: string)
    requires FromList(text).Loaded?
    ensures Clean(FromList(text).state) && WellFormed(FromList(text).state)
  {
    EmptyIsClean(false);
    LoadIsClean(EMPTY, ScanLines(text).lines);
  }

  lemma FinalIsClean(source: Ruleset, target: Ruleset)
    requires Clean(source) && Replay(source, TransitionRules(source, target)).Applied?
    ensures Clean(Replay(source, TransitionRules(source, target)).state)
  {
    hide TransitionRules, Replay;
    PlanHasAccess(source, target);
    ReplayKeepsNoEmptyEntry(source, TransitionRules(source, target));
    ReplayKeepsWellFormed(source, TransitionRules(source, target));
  }

  lemma FinalIsPrintable(final: Ruleset, target: Ruleset, es: seq<DeviceRule>)
    requires Enumerates(es, final.rules) && final.rules == WithoutEmpty(target.rules)
    requires Writable(target)
    ensures forall e <- es :: Printable(e)
  {
  }

  lemma FinalIsWellFormed(final: Ruleset)
    requires Clean(final)
    ensures WellFormed(final) && Ruleset(final.defaultAllow, final.rules) == final
  {
  }

  lemma WithoutEmptyIsAll(target: Ruleset)
    requires !target.defaultAllow
    ensures Ruleset(false, WithoutEmpty(target.rules)) == target <==>
            forall m <- target.rules :: !IsEmpty(target.rules[m])
  {
    var kept := WithoutEmpty(target.rules);
    if forall m <- target.rules :: !IsEmpty(target.rules[m]) {
      assert kept == target.rules;
    } else {
      var m :| m in target.rules && IsEmpty(target.rules[m]);
      assert m !in kept;
    }
  }

  /** The line that stands for a cgroup in black-list mode. */
  const ALLOW_ALL := DeviceRule(DeviceMeta('a', WILDCARD, WILDCARD), "rwm")

  /**
   * A black-list is loaded from that line alone, so its exceptions do not show. Whatever they are, the plan made
   * from the line reaches the target's mode and permissions. For a black-list target, from any source, the list
   * read back is that line again and the final check passes, as it does for no list of a white-list.
   */
  lemma BlackListReadsBack(hidden: Ruleset, source: Ruleset, target: Ruleset)
    requires WellFormed(hidden) && hidden.defaultAllow && WellFormed(source) && WellFormed(target)
    ensures var loaded := FromList(Unlines([LineOf(ALLOW_ALL)]));
            && loaded == Loaded(Ruleset(true, map[]))
            && var r := Replay(hidden, TransitionRules(loaded.state, target));
               && r.Applied?
               && r.state.defaultAllow == target.defaultAllow
               && (forall m :: r.state.PermsOf(m) == target.PermsOf(m))
               && (target.defaultAllow ==> forall made :: CheckPasses(loaded.state, false, target, made))
    ensures target.defaultAllow ==> forall after: Ruleset, afterMade, made :: !after.defaultAllow ==>
                                      !CheckPasses(after, afterMade, target, made)
    ensures var r := Replay(source, TransitionRules(source, target));
            target.defaultAllow ==> r.Applied? && r.state.defaultAllow
  {
    ReplayReachesTarget(source, target);
    HiddenExceptionsAreReset(Ruleset(true, map[]), target, hidden);
    hide *;
    AllowAllLoads();
    if target.defaultAllow {
      ModeIsEnough(target);
    }
  }

  lemma AllowAllLoads()
    ensures FromList(Unlines([LineOf(ALLOW_ALL)])) == Loaded(Ruleset(true, map[]))
  {
    hide Split, LineOf, ScanLines, Unlines;
    var line := LineOf(ALLOW_ALL);
    assert IsValid("rwm") && !IsEmpty("rwm") by {
      FromSetIsCanonical(Mask(true, true, true));
      assert FromSet(Mask(true, true, true)) == "rwm";
    }
    SplitOfLine(ALLOW_ALL);
    LineIsOneLine(ALLOW_ALL);
    PrintableIsShort(ALLOW_ALL);
    ScanOfUnlines([line]);
    assert [line][1..] == [];
    assert ParseLine(line) == EveryDevice;
    assert LoadLines(Ruleset(true, map[]), []) == Loaded(Ruleset(true, map[]));
  }

  lemma ModeIsEnough(target: Ruleset)
    requires target.defaultAllow
    ensures forall made :: CheckPasses(Ruleset(true, map[]), false, target, made)
    ensures forall after: Ruleset, afterMade, made :: !after.defaultAllow ==>
              !CheckPasses(after, afterMade, target, made)
  {
  }

  // ----- requests that the check turns down -----

  lemma NothingListed()
    ensures FromList("") == Loaded(EMPTY) && FromList(Unlines(LinesOf([]))) == Loaded(EMPTY)
  {
  }

  /** Setting a target from an empty list never meets a refusal, and ends empty if the target grants nothing. */
  lemma FromNothing(target: Ruleset)
    requires WellFormed(target) && !target.defaultAllow && WithoutEmpty(target.rules) == map[]
    ensures Replay(EMPTY, TransitionRules(EMPTY, target)).Applied?
    ensures Replay(EMPTY, TransitionRules(EMPTY, target)).state.rules == map[]
  {
    EmptyIsWellFormed();
    EmptyIsClean(false);
    WhiteListReplay(EMPTY, target);
    ReplayReachesTarget(EMPTY, target);
    FinalIsClean(EMPTY, target);
    ReplayedTable(Replay(EMPTY, TransitionRules(EMPTY, target)).state, target);
  }

  lemma Letters()
    ensures MaskOf("") == Mask(false, false, false) && MaskOf("r") == Mask(true, false, false)
    ensures Union("", "") == "" && Union("r", "") == "r" && Difference("r", "r") == ""
    ensures IsEmpty("")
  {
    assert 'r' in "r" && 'w' !in "r" && 'm' !in "r";
  }

  /** An exception allowed without permissions: from an empty list to an empty list, and the check fails. */
  lemma EmptyPermissionsFail(rules: seq<Rule>)
    requires rules == [Rule('c', 1, 3, "", true)]
    ensures Replay(EMPTY, rules).Applied? && FromList("") == Loaded(EMPTY)
    ensures Planned("", Target(rules)).Applied? && Enumerates([], Planned("", Target(rules)).state.rules)
    ensures FromList(Unlines(LinesOf([]))).Loaded? && !ReadBackPasses(Unlines(LinesOf([])), rules)
  {
    hide Union, MaskOf, FromSet, TransitionRules, FromList, Unlines, LinesOf, CheckPasses;
    Letters();
    assert rules[1..] == [];
    var device := DeviceMeta('c', 1, 3);
    var target := Ruleset(false, map[device := ""]);
    assert ApplyRule(EMPTY, rules[0]) == Applied(target);
    assert Replay(target, rules[1..]) == Applied(target);
    EmptyIsWellFormed();
    ReplayKeepsWellFormed(EMPTY, rules);
    assert WithoutEmpty(target.rules) == map[];
    FromNothing(target);
    NothingListed();
    SetReadsBackTarget("", rules, []);
    assert device in target.rules;
  }

  /** An exception that is allowed and denied again: likewise. */
  lemma AllowedAndDeniedFails(rules: seq<Rule>)
    requires rules == [Rule('c', 1, 3, "r", true), Rule('c', 1, 3, "r", false)]
    ensures Replay(EMPTY, rules).Applied? && FromList("") == Loaded(EMPTY)
    ensures Planned("", Target(rules)).Applied? && Enumerates([], Planned("", Target(rules)).state.rules)
    ensures FromList(Unlines(LinesOf([]))).Loaded? && !ReadBackPasses(Unlines(LinesOf([])), rules)
  {
    hide Union, Difference, MaskOf, FromSet, TransitionRules, FirstBlock, FromList, Unlines, LinesOf, CheckPasses;
    Letters();
    assert rules[1..] == [rules[1]] && rules[1..][1..] == [];
    var device := DeviceMeta('c', 1, 3);
    var s := Ruleset(false, map[device := "r"]);
    assert ApplyRule(EMPTY, rules[0]) == Applied(s);
    NoWiderInOne(s, device);
    assert s.rules - {device} == map[];
    assert ApplyRule(s, rules[1]) == Applied(EMPTY);
    assert Replay(s, rules[1..]) == Applied(EMPTY);
    assert MadeAfter(EMPTY, true, rules[1..][1..]) && MadeAfter(s, true, rules[1..]);
    EmptyIsWellFormed();
    FromNothing(EMPTY);
    NothingListed();
    SetReadsBackTarget("", rules, []);
  }

  lemma NoWiderInOne(s: Ruleset, device: DeviceMeta)
    requires s == Ruleset(false, map[device := "r"])
    ensures RemoveRule(s, DeviceRule(device, "r")) == Applied(Removed(s, DeviceRule(device, "r")))
  {
    RemoveRuleCondition(s, DeviceRule(device, "r"));
  }
}
