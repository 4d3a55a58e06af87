/** The devices-cgroup emulator: a default policy plus a table of exceptions, changed rule by rule. */
module DeviceEmulator {
  import opened Wrappers
  import opened Permissions

  const WILDCARD := -1

  /** A device pattern: type, major and minor, where WILDCARD matches every number. */
  datatype DeviceMeta = DeviceMeta(node: char, major: int, minor: int)

  datatype DeviceRule = DeviceRule(meta: DeviceMeta, perms: string)

  /** A rule as callers give it; for type 'a' only `allow` matters. */
  datatype Rule = Rule(node: char, major: int, minor: int, perms: string, allow: bool)

  datatype RuleError = NotCgroupType(node: char) | HoleInWildcard(partial: DeviceMeta)

  /** The value of an emulator. */
  datatype Ruleset = Ruleset(defaultAllow: bool, rules: map<DeviceMeta, string>) {
    /** A missing entry reads as the empty permission string. */
    function PermsOf(m: DeviceMeta): string {
      if m in rules then rules[m] else ""
    }

    function MaskAt(m: DeviceMeta): Mask {
      MaskOf(PermsOf(m))
    }
  }

  datatype Outcome = Applied(state: Ruleset) | Rejected(error: RuleError)

  predicate CanCgroup(node: char) {
    node in {'a', 'b', 'c'}
  }

  /** The wildcard patterns that may partially match `m`, in the order they are examined. */
  function PartialMetas(m: DeviceMeta): seq<DeviceMeta> {
    [ DeviceMeta(m.node, WILDCARD, m.minor),
      DeviceMeta(m.node, m.major, WILDCARD),
      DeviceMeta(m.node, WILDCARD, WILDCARD) ]
  }

  predicate BlockedBy(s: Ruleset, rule: DeviceRule, partial: DeviceMeta) {
    partial != rule.meta && !IsEmpty(Intersection(s.PermsOf(partial), rule.perms))
  }

  /** The first pattern that a removal would punch a hole in. */
  function FirstBlock(s: Ruleset, rule: DeviceRule, partials: seq<DeviceMeta>): Option<DeviceMeta> {
    if partials == [] then None
    else if BlockedBy(s, rule, partials[0]) then Some(partials[0])
    else FirstBlock(s, rule, partials[1..])
  }

  function Added(s: Ruleset, rule: DeviceRule): Ruleset {
    s.(rules := s.rules[rule.meta := Union(rule.perms, s.PermsOf(rule.meta))])
  }

  function Removed(s: Ruleset, rule: DeviceRule): Ruleset {
    var left := Difference(s.PermsOf(rule.meta), rule.perms);
    s.(rules := if IsEmpty(left) then s.rules - {rule.meta} else s.rules[rule.meta := left])
  }

  function RemoveRule(s: Ruleset, rule: DeviceRule): Outcome {
    var block := FirstBlock(s, rule, PartialMetas(rule.meta));
    if block.Some? then Rejected(HoleInWildcard(block.value)) else Applied(Removed(s, rule))
  }

  /** Allowing (or denying) a rule; no rule stands for every device. */
  function SetAccess(s: Ruleset, rule: Option<DeviceRule>, allow: bool): Outcome {
    if rule.None? || rule.value.meta.node == 'a' then Applied(Ruleset(allow, map[]))
    else if s.defaultAllow == allow then RemoveRule(s, rule.value)
    else Applied(Added(s, rule.value))
  }

  function InnerRule(rule: Rule): Option<DeviceRule> {
    if rule.node == 'a' then None
    else Some(DeviceRule(DeviceMeta(rule.node, rule.major, rule.minor), rule.perms))
  }

  function ApplyRule(s: Ruleset, rule: Rule): Outcome {
    if !CanCgroup(rule.node) then Rejected(NotCgroupType(rule.node))
    else SetAccess(s, InnerRule(rule), rule.allow)
  }

  /** Applying rules in order; the first rejection ends the replay. */
  function Replay(s: Ruleset, rules: seq<Rule>): Outcome
    decreases |rules|
  {
    if rules == [] then Applied(s)
    else
      var first := ApplyRule(s, rules[0]);
      if first.Rejected? then first else Replay(first.state, rules[1..])
  }

  /** Whether a table is allocated after a rule: an addition allocates it and a reset drops it. */
  function MadeBy(s: Ruleset, made: bool, rule: Option<DeviceRule>, allow: bool): bool {
    if rule.None? || rule.value.meta.node == 'a' then false
    else if s.defaultAllow == allow then made
    else true
  }

  /** The same over a sequence of rules, as far as they are applied. */
  function MadeAfter(s: Ruleset, made: bool, rules: seq<Rule>): bool
    decreases |rules|
  {
    if rules == [] || ApplyRule(s, rules[0]).Rejected? then made
    else MadeAfter(ApplyRule(s, rules[0]).state, MadeBy(s, made, InnerRule(rules[0]), rules[0].allow), rules[1..])
  }

  /** What every emulator satisfies: block or char patterns only, with canonical permissions. */
  ghost predicate WellFormed(s: Ruleset) {
    forall m <- s.rules :: m.node in {'b', 'c'} && IsValid(s.rules[m])
  }

  /**
   * The object that the source mutates; every method is tied to the functions above. `made` tells an empty
   * table that has been made from one that never was, which a deep comparison does not take for equal.
   */
  class Emulator {
    var defaultAllow: bool
    var rules: map<DeviceMeta, string>
    var made: bool

    constructor ()
      ensures State() == Ruleset(false, map[]) && !made
    {
      defaultAllow, rules, made := false, map[], false;
    }

    function State(): Ruleset
      reads this
    {
      Ruleset(defaultAllow, rules)
    }

    method AddRule(rule: DeviceRule)
      modifies this`rules, this`made
      ensures State() == Added(old(State()), rule) && made
    {
      made := true;
      var oldPerms := if rule.meta in rules then rules[rule.meta] else "";
      var newPerms := Union(rule.perms, oldPerms);
      rules := rules[rule.meta := newPerms];
    }

    method RmRule(rule: DeviceRule) returns (err: Option<RuleError>)
      modifies this`rules
      ensures match RemoveRule(old(State()), rule)
              case Applied(s) => err == None && State() == s
              case Rejected(e) => err == Some(e) && State() == old(State())
    {
      var partials := PartialMetas(rule.meta);
      for i := 0 to |partials|
        invariant State() == old(State())
        invariant FirstBlock(State(), rule, partials) == FirstBlock(State(), rule, partials[i..])
      {
        var partialPerms := if partials[i] in rules then rules[partials[i]] else "";
        if rule.meta != partials[i] && !IsEmpty(Intersection(partialPerms, rule.perms)) {
          return Some(HoleInWildcard(partials[i]));
        }
      }
      var oldPerms := if rule.meta in rules then rules[rule.meta] else "";
      var newPerms := Difference(oldPerms, rule.perms);
      if IsEmpty(newPerms) {
        rules := rules - {rule.meta};
      } else {
        rules := rules[rule.meta := newPerms];
      }
      return None;
    }

    method Allow(rule: Option<DeviceRule>) returns (err: Option<RuleError>)
      modifies this
      ensures match SetAccess(old(State()), rule, true)
              case Applied(s) => err == None && State() == s
              case Rejected(e) => err == Some(e) && State() == old(State())
      ensures made == if err == None then MadeBy(old(State()), old(made), rule, true) else old(made)
    {
      err := None;
      if rule.None? || rule.value.meta.node == 'a' {
        defaultAllow, rules, made := true, map[], false;
      } else if defaultAllow {
        err := RmRule(rule.value);
      } else {
        AddRule(rule.value);
      }
    }

    method Deny(rule: Option<DeviceRule>) returns (err: Option<RuleError>)
      modifies this
      ensures match SetAccess(old(State()), rule, false)
              case Applied(s) => err == None && State() == s
              case Rejected(e) => err == Some(e) && State() == old(State())
      ensures made == if err == None then MadeBy(old(State()), old(made), rule, false) else old(made)
    {
      err := None;
      if rule.None? || rule.value.meta.node == 'a' {
        defaultAllow, rules, made := false, map[], false;
      } else if defaultAllow {
        AddRule(rule.value);
      } else {
        err := RmRule(rule.value);
      }
    }

    method Apply(rule: Rule) returns (err: Option<RuleError>)
      modifies this
      ensures match ApplyRule(old(State()), rule)
              case Applied(s) => err == None && State() == s
              case Rejected(e) => err == Some(e) && State() == old(State())
      ensures made == if err == None then MadeBy(old(State()), old(made), InnerRule(rule), rule.allow) else old(made)
    {
      if !CanCgroup(rule.node) {
        return Some(NotCgroupType(rule.node));
      }
      var innerRule := Some(DeviceRule(DeviceMeta(rule.node, rule.major, rule.minor), rule.perms));
      if innerRule.value.meta.node == 'a' {
        innerRule := None;
      }
      if rule.allow {
        err := Allow(innerRule);
      } else {
        err := Deny(innerRule);
      }
    }
  }

  lemma FirstBlockIsExact(s: Ruleset, rule: DeviceRule, partials: seq<DeviceMeta>)
    ensures FirstBlock(s, rule, partials).None? <==> forall w <- partials :: !BlockedBy(s, rule, w)
  {
  }

  /** Patterns that match everything `m` matches, other than `m` itself. */
  predicate StrictlyWider(w: DeviceMeta, m: DeviceMeta) {
    && w != m
    && w.node == m.node
    && (w.major == m.major || w.major == WILDCARD)
    && (w.minor == m.minor || w.minor == WILDCARD)
  }

  lemma PartialMetasAreTheWiderPatterns(m: DeviceMeta, w: DeviceMeta)
    ensures w in PartialMetas(m) && w != m <==> StrictlyWider(w, m)
  {
    var p := PartialMetas(m);
    if StrictlyWider(w, m) {
      assert w == p[0] || w == p[1] || w == p[2];
    }
  }

  /** A removal goes through exactly when no strictly wider exception shares a permission with it. */
  lemma RemoveRuleCondition(s: Ruleset, rule: DeviceRule)
    ensures RemoveRule(s, rule).Applied? <==>
            forall w :: StrictlyWider(w, rule.meta) ==> !s.MaskAt(w).Overlaps(MaskOf(rule.perms))
  {
    var p := PartialMetas(rule.meta);
    FirstBlockIsExact(s, rule, p);
    forall w
      ensures w in p && BlockedBy(s, rule, w) <==>
              StrictlyWider(w, rule.meta) && s.MaskAt(w).Overlaps(MaskOf(rule.perms))
    {
      PartialMetasAreTheWiderPatterns(rule.meta, w);
      OperationsAreSetOperations(s.PermsOf(w), rule.perms);
    }
  }

  lemma AddedMask(s: Ruleset, rule: DeviceRule, m: DeviceMeta)
    ensures Added(s, rule).MaskAt(m) == if m == rule.meta then MaskOf(rule.perms).Or(s.MaskAt(m)) else s.MaskAt(m)
  {
    OperationsAreSetOperations(rule.perms, s.PermsOf(rule.meta));
  }

  lemma RemovedMask(s: Ruleset, rule: DeviceRule, m: DeviceMeta)
    ensures Removed(s, rule).MaskAt(m) == if m == rule.meta then s.MaskAt(m).AndNot(MaskOf(rule.perms)) else s.MaskAt(m)
  {
    OperationsAreSetOperations(s.PermsOf(rule.meta), rule.perms);
  }

  lemma UpdateKeepsWellFormed(s: Ruleset, m: DeviceMeta, perms: string)
    requires WellFormed(s) && m.node in {'b', 'c'} && IsValid(perms)
    ensures WellFormed(s.(rules := s.rules[m := perms]))
    ensures WellFormed(s.(rules := s.rules - {m}))
  {
  }

  lemma ApplyKeepsWellFormed(s: Ruleset, rule: Rule)
    requires WellFormed(s)
    ensures ApplyRule(s, rule).Applied? ==> WellFormed(ApplyRule(s, rule).state)
  {
    if rule.node in {'b', 'c'} {
      var m := DeviceMeta(rule.node, rule.major, rule.minor);
      if s.defaultAllow == rule.allow {
        OperationsAreSetOperations(s.PermsOf(m), rule.perms);
        UpdateKeepsWellFormed(s, m, Difference(s.PermsOf(m), rule.perms));
      } else {
        OperationsAreSetOperations(rule.perms, s.PermsOf(m));
        UpdateKeepsWellFormed(s, m, Union(rule.perms, s.PermsOf(m)));
      }
    }
  }

  /** Well-formedness holds after every replay that succeeds, whatever rules callers pass. */
  lemma {:induction false} ReplayKeepsWellFormed(s: Ruleset, rules: seq<Rule>)
    requires WellFormed(s)
    ensures Replay(s, rules).Applied? ==> WellFormed(Replay(s, rules).state)
    decreases |rules|
  {
    if rules != [] && ApplyRule(s, rules[0]).Applied? {
      ApplyKeepsWellFormed(s, rules[0]);
      ReplayKeepsWellFormed(ApplyRule(s, rules[0]).state, rules[1..]);
    }
  }

  lemma {:induction false} ReplayConcat(s: Ruleset, a: seq<Rule>, b: seq<Rule>)
    ensures Replay(s, a + b) ==
            if Replay(s, a).Rejected? then Replay(s, a) else Replay(Replay(s, a).state, b)
    decreases |a|
  {
    if a == [] {
      assert a + b == b;
    } else {
      assert (a + b)[0] == a[0] && (a + b)[1..] == a[1..] + b;
      if ApplyRule(s, a[0]).Applied? {
        ReplayConcat(ApplyRule(s, a[0]).state, a[1..], b);
      }
    }
  }

  // ----- what a rule does to access -----

  /** A device node that a process may try to open; its numbers are never wildcards. */
  datatype Device = Device(node: char, major: nat, minor: nat)

  predicate Matches(m: DeviceMeta, d: Device) {
    && m.node == d.node
    && (m.major == WILDCARD || m.major == d.major)
    && (m.minor == WILDCARD || m.minor == d.minor)
  }

  /** Some exception that matches `d` carries every permission in `access`. */
  ghost predicate Excepted(s: Ruleset, d: Device, access: Mask) {
    exists m :: m in s.rules && Matches(m, d) && access.Within(s.MaskAt(m))
  }

  /**
   * Whether `d` may be used for `access`. A white-list wants one matching exception with all of it; a black-list
   * wants no matching exception with any of it.
   */
  ghost predicate Admits(s: Ruleset, d: Device, access: Mask) {
    if s.defaultAllow then forall m :: m in s.rules && Matches(m, d) ==> !access.Overlaps(s.MaskAt(m))
    else Excepted(s, d, access)
  }

  /** A rule for every device decides every access, whatever was in force before. */
  lemma WildcardRuleDecides(s: Ruleset, rule: Rule, d: Device, access: Mask)
    requires rule.node == 'a' && !access.IsNone()
    ensures ApplyRule(s, rule).Applied?
    ensures Admits(ApplyRule(s, rule).state, d, access) <==> rule.allow
    ensures forall inner: DeviceRule :: inner.meta.node == 'a' ==>
              SetAccess(s, Some(inner), rule.allow) == ApplyRule(s, rule)
  {
  }

  /** An exception is never refused, and it changes exactly the accesses it names. */
  lemma ExceptionDecides(s: Ruleset, rule: Rule, d: Device, access: Mask)
    requires rule.node in {'b', 'c'} && rule.allow != s.defaultAllow && !access.IsNone()
    ensures ApplyRule(s, rule).Applied?
    ensures var meta, perms := DeviceMeta(rule.node, rule.major, rule.minor), MaskOf(rule.perms);
            var s' := ApplyRule(s, rule).state;
            if rule.allow then
              Admits(s', d, access) <==> Admits(s, d, access) ||
                                         (Matches(meta, d) && access.Within(perms.Or(s.MaskAt(meta))))
            else
              Admits(s', d, access) <==> Admits(s, d, access) && !(Matches(meta, d) && access.Overlaps(perms))
  {
    hide Permissions.FromSet;
    var meta := DeviceMeta(rule.node, rule.major, rule.minor);
    var inner := DeviceRule(meta, rule.perms);
    var s' := Added(s, inner);
    assert ApplyRule(s, rule) == Applied(s');
    forall m ensures s'.MaskAt(m) == if m == meta then MaskOf(rule.perms).Or(s.MaskAt(m)) else s.MaskAt(m) {
      AddedMask(s, inner, m);
    }
    if rule.allow {
      if m :| m in s.rules && Matches(m, d) && access.Within(s.MaskAt(m)) {
        assert m in s'.rules && access.Within(s'.MaskAt(m));
      }
      assert meta in s'.rules;
    } else {
      assert meta in s'.rules && forall m :: m in s.rules ==> m in s'.rules;
    }
  }

  /** Over a list of rules, nothing before the last rule for every device matters once it has been applied. */
  lemma {:induction false} WildcardRuleForgets(s: Ruleset, made: bool, pre: seq<Rule>, all: Rule, post: seq<Rule>)
    requires Replay(s, pre).Applied? && all.node == 'a'
    ensures Replay(s, pre + [all] + post) == Replay(Ruleset(all.allow, map[]), post)
    ensures MadeAfter(s, made, pre + [all] + post) == MadeAfter(Ruleset(all.allow, map[]), false, post)
    decreases |pre|
  {
    var rules := pre + [all] + post;
    if pre == [] {
      assert rules[0] == all && rules[1..] == post;
      assert ApplyRule(s, all) == Applied(Ruleset(all.allow, map[]));
    } else {
      assert rules[0] == pre[0] && rules[1..] == pre[1..] + [all] + post;
      var made' := MadeBy(s, made, InnerRule(pre[0]), pre[0].allow);
      WildcardRuleForgets(ApplyRule(s, pre[0]).state, made', pre[1..], all, post);
    }
  }

  /** Some number matches both; a number below the wildcard matches none. */
  predicate NumbersMeet(a: int, b: int) {
    a >= WILDCARD && b >= WILDCARD && (a == WILDCARD || b == WILDCARD || a == b)
  }

  /** Patterns some device matches both of. */
  predicate Meet(m: DeviceMeta, o: DeviceMeta) {
    m.node == o.node && NumbersMeet(m.major, o.major) && NumbersMeet(m.minor, o.minor)
  }

  /** A removal that succeeds leaves nothing covering the pattern with any of its permissions. */
  lemma RemovalLeavesNoCover(s: Ruleset, rule: DeviceRule, w: DeviceMeta)
    requires RemoveRule(s, rule).Applied?
    requires w == rule.meta || StrictlyWider(w, rule.meta)
    ensures !RemoveRule(s, rule).state.MaskAt(w).Overlaps(MaskOf(rule.perms))
  {
    RemoveRuleCondition(s, rule);
    RemovedMask(s, rule, w);
  }

  ghost predicate StillExcepted(s: Ruleset, rule: DeviceRule, d: Device, access: Mask) {
    Matches(rule.meta, d) && !access.IsNone() && access.Within(MaskOf(rule.perms)) && Excepted(s, d, access)
  }

  function Pick(pattern: int, other: int): nat {
    if pattern >= 0 then pattern else if other >= 0 then other else 0
  }

  /** Other exceptions that meet the pattern of a rule and share a permission with it. */
  predicate Survives(s: Ruleset, rule: DeviceRule, o: DeviceMeta) {
    o in s.rules && o != rule.meta && Meet(o, rule.meta) && s.MaskAt(o).Overlaps(MaskOf(rule.perms))
  }

  lemma StillExceptedHasSurvivor(s: Ruleset, rule: DeviceRule, d: Device, access: Mask) returns (o: DeviceMeta)
    requires RemoveRule(s, rule).Applied?
    requires StillExcepted(RemoveRule(s, rule).state, rule, d, access)
    ensures Survives(s, rule, o)
  {
    var s' := RemoveRule(s, rule).state;
    o :| o in s'.rules && Matches(o, d) && access.Within(s'.MaskAt(o));
    RemovedMask(s, rule, o);
  }

  lemma SurvivorKeepsDevice(s: Ruleset, rule: DeviceRule, o: DeviceMeta) returns (d: Device, access: Mask)
    requires RemoveRule(s, rule).Applied?
    requires Survives(s, rule, o)
    ensures StillExcepted(RemoveRule(s, rule).state, rule, d, access)
  {
    var s' := RemoveRule(s, rule).state;
    d := Device(o.node, Pick(o.major, rule.meta.major), Pick(o.minor, rule.meta.minor));
    access := s.MaskAt(o).And(MaskOf(rule.perms));
    RemovedMask(s, rule, o);
    assert o in s'.rules && Matches(o, d) && access.Within(s'.MaskAt(o));
  }

  /**
   * A removal that succeeds does not yet close the devices it names: narrower or crossing exceptions
   * survive. It closes all of them exactly when no other exception meets the pattern with a shared permission.
   */
  lemma RemovalClosesDevicesWhen(s: Ruleset, rule: DeviceRule)
    requires RemoveRule(s, rule).Applied?
    ensures (exists d, access :: StillExcepted(RemoveRule(s, rule).state, rule, d, access)) <==>
            (exists o :: Survives(s, rule, o))
  {
    if d, access :| StillExcepted(RemoveRule(s, rule).state, rule, d, access) {
      var o := StillExceptedHasSurvivor(s, rule, d, access);
    }
    if o :| Survives(s, rule, o) {
      var d, access := SurvivorKeepsDevice(s, rule, o);
    }
  }

  /** For example, denying all character devices leaves an exception for one of them. */
  lemma DenialLeavesNarrower(s: Ruleset, rule: DeviceRule)
    requires s == Ruleset(false, map[DeviceMeta('c', 1, 3) := "r"]) &&
             rule == DeviceRule(DeviceMeta('c', WILDCARD, WILDCARD), "r")
    ensures RemoveRule(s, rule).Applied? &&
            StillExcepted(RemoveRule(s, rule).state, rule, Device('c', 1, 3), MaskOf("r"))
  {
    RemoveRuleCondition(s, rule);
    var m := DeviceMeta('c', 1, 3);
    RemovedMask(s, rule, m);
    assert m in RemoveRule(s, rule).state.rules && Matches(m, Device('c', 1, 3));
    OneLetter();
  }

  lemma OneLetter()
    ensures !MaskOf("r").IsNone()
  {
    assert 'r' in "r";
  }
}
