/** Planning the rules that take a devices cgroup from one ruleset to another, and replaying them. */
module DeviceTransition {
  import opened Permissions
  import opened DeviceEmulator

  // ----- ordered entries -----

  /** By major, then minor, then type: wildcards, being -1, sort before device numbers. */
  predicate Less(a: DeviceMeta, b: DeviceMeta) {
    || a.major < b.major
    || (a.major == b.major && a.minor < b.minor)
    || (a.major == b.major && a.minor == b.minor && a.node < b.node)
  }

  ghost predicate Sorted(es: seq<DeviceRule>) {
    forall i, j :: 0 <= i < j < |es| ==> Less(es[i].meta, es[j].meta)
  }

  /** The entries of a table, each once, in sorted order. */
  ghost predicate IsOrdering(es: seq<DeviceRule>, rules: map<DeviceMeta, string>) {
    && Sorted(es)
    && (forall e <- es :: e.meta in rules && rules[e.meta] == e.perms)
    && (forall m <- rules :: DeviceRule(m, rules[m]) in es)
  }

  function Insert(e: DeviceRule, es: seq<DeviceRule>): (r: seq<DeviceRule>)
    requires Sorted(es)
    requires forall x <- es :: x.meta != e.meta
    ensures Sorted(r)
    ensures forall x :: x in r <==> x == e || x in es
  {
    if es == [] then [e]
    else if Less(e.meta, es[0].meta) then
      assert forall x <- es :: x == es[0] || Less(es[0].meta, x.meta);
      [e] + es
    else
      assert es == [es[0]] + es[1..];
      var rest := Insert(e, es[1..]);
      assert forall x <- rest :: Less(es[0].meta, x.meta);
      [es[0]] + rest
  }

  ghost function Ordered(rules: map<DeviceMeta, string>): (es: seq<DeviceRule>)
    ensures IsOrdering(es, rules)
    decreases |rules|
  {
    if rules == map[] then []
    else
      var m :| m in rules;
      var rest := rules - {m};
      assert rules.Keys == rest.Keys + {m};
      Insert(DeviceRule(m, rules[m]), Ordered(rest))
  }

  lemma OrderingsStartAlike(a: seq<DeviceRule>, b: seq<DeviceRule>, rules: map<DeviceMeta, string>)
    requires IsOrdering(a, rules) && IsOrdering(b, rules) && rules != map[]
    ensures a != [] && b != [] && a[0] == b[0]
  {
    var m :| m in rules;
    assert DeviceRule(m, rules[m]) in a && DeviceRule(m, rules[m]) in b;
    assert a[0] in a && b[0] in b;
    var i :| 0 <= i < |b| && b[i] == DeviceRule(a[0].meta, rules[a[0].meta]);
    var j :| 0 <= j < |a| && a[j] == DeviceRule(b[0].meta, rules[b[0].meta]);
  }

  /** A table has one ordering, so the order in which its entries are visited does not matter. */
  lemma {:induction false} OrderingIsUnique(a: seq<DeviceRule>, b: seq<DeviceRule>, rules: map<DeviceMeta, string>)
    requires IsOrdering(a, rules) && IsOrdering(b, rules)
    ensures a == b
    decreases |rules|
  {
    hide IsOrdering;
    if rules == map[] {
      OrderingOfEmpty(a);
      OrderingOfEmpty(b);
    } else {
      OrderingsStartAlike(a, b, rules);
      var rest := rules - {a[0].meta};
      OrderingTail(a, rules);
      OrderingTail(b, rules);
      OrderingIsUnique(a[1..], b[1..], rest);
      assert a == [a[0]] + a[1..] && b == [b[0]] + b[1..];
    }
  }

  lemma OrderingOfEmpty(a: seq<DeviceRule>)
    requires IsOrdering(a, map[])
    ensures a == []
  {
    HasMember(a);
  }

  lemma HasMember(a: seq<DeviceRule>)
    ensures a != [] ==> exists e :: e in a
  {
    if a != [] {
      assert a[0] in a;
    }
  }

  lemma OrderingTail(a: seq<DeviceRule>, rules: map<DeviceMeta, string>)
    requires IsOrdering(a, rules) && a != []
    ensures IsOrdering(a[1..], rules - {a[0].meta})
    ensures |rules - {a[0].meta}| < |rules|
  {
    hide Less;
    var m, tail := a[0].meta, a[1..];
    var rest := rules - {m};
    assert a == [a[0]] + tail;
    assert a[0] in a && m in rules;
    assert rules.Keys == rest.Keys + {m};
    TailAvoidsHead(a);
  }

  lemma TailAvoidsHead(a: seq<DeviceRule>)
    requires Sorted(a) && a != []
    ensures forall e <- a[1..] :: e.meta != a[0].meta
  {
    assert forall i :: 0 <= i < |a[1..]| ==> a[1..][i] == a[i + 1] && Less(a[0].meta, a[i + 1].meta);
  }

  /** The entries are collected in whatever order the table yields them, then sorted. */
  method OrderedEntries(rules: map<DeviceMeta, string>) returns (es: seq<DeviceRule>)
    ensures es == Ordered(rules)
  {
    es := [];
    var rest := rules.Keys;
    while rest != {}
      invariant rest <= rules.Keys
      invariant Sorted(es)
      invariant forall e <- es :: e.meta in rules && e.meta !in rest && rules[e.meta] == e.perms
      invariant forall m <- rules :: m in rest || DeviceRule(m, rules[m]) in es
    {
      var m :| m in rest;
      rest := rest - {m};
      es := Insert(DeviceRule(m, rules[m]), es);
    }
    OrderingIsUnique(es, Ordered(rules), rules);
  }

  // ----- the plan -----

  const EVERYTHING := "rwm"

  predicate NeedsReset(source: Ruleset, target: Ruleset) {
    source.defaultAllow || source.defaultAllow != target.defaultAllow
  }

  function ResetRule(target: Ruleset): Rule {
    Rule('a', -1, -1, EVERYTHING, target.defaultAllow)
  }

  /** The old exceptions that matter: none, when the plan starts with a reset. */
  function Base(source: Ruleset, target: Ruleset): Ruleset {
    if NeedsReset(source, target) then Ruleset(target.defaultAllow, map[]) else source
  }

  function RuleFor(meta: DeviceMeta, perms: string, allow: bool): seq<Rule> {
    if IsEmpty(perms) then [] else [Rule(meta.node, meta.major, meta.minor, perms, allow)]
  }

  function Drop(e: DeviceRule, target: Ruleset): seq<Rule> {
    RuleFor(e.meta, Difference(e.perms, target.PermsOf(e.meta)), target.defaultAllow)
  }

  function Gain(e: DeviceRule, base: Ruleset, target: Ruleset): seq<Rule> {
    RuleFor(e.meta, Difference(e.perms, base.PermsOf(e.meta)), !target.defaultAllow)
  }

  function DropRules(es: seq<DeviceRule>, target: Ruleset): seq<Rule> {
    if es == [] then [] else Drop(es[0], target) + DropRules(es[1..], target)
  }

  function GainRules(es: seq<DeviceRule>, base: Ruleset, target: Ruleset): seq<Rule> {
    if es == [] then [] else Gain(es[0], base, target) + GainRules(es[1..], base, target)
  }

  lemma DropRulesUnfold(es: seq<DeviceRule>, k: nat, target: Ruleset)
    requires k <= |es|
    ensures DropRules(es[k..], target) ==
            if k == |es| then [] else Drop(es[k], target) + DropRules(es[k + 1..], target)
    ensures k < |es| ==> |Drop(es[k], target)| <= 1
  {
    hide Permissions.Difference;
    assert k < |es| ==> es[k..][1..] == es[k + 1..];
  }

  lemma GainRulesUnfold(es: seq<DeviceRule>, k: nat, base: Ruleset, target: Ruleset)
    requires k <= |es|
    ensures GainRules(es[k..], base, target) ==
            if k == |es| then [] else Gain(es[k], base, target) + GainRules(es[k + 1..], base, target)
    ensures k < |es| ==> |Gain(es[k], base, target)| <= 1
  {
    hide Permissions.Difference;
    assert k < |es| ==> es[k..][1..] == es[k + 1..];
  }

  ghost function Drops(source: Ruleset, target: Ruleset): seq<Rule> {
    DropRules(Ordered(Base(source, target).rules), target)
  }

  ghost function Gains(source: Ruleset, target: Ruleset): seq<Rule> {
    GainRules(Ordered(target.rules), Base(source, target), target)
  }

  ghost function TransitionRules(source: Ruleset, target: Ruleset): seq<Rule> {
    (if NeedsReset(source, target) then [ResetRule(target)] else []) + Drops(source, target) + Gains(source, target)
  }

  /** First pass: inverse rules for what the old exceptions lose. */
  method AppendDrops(rules: seq<Rule>, es: seq<DeviceRule>, target: Emulator) returns (more: seq<Rule>)
    ensures more == rules + DropRules(es, target.State())
  {
    hide Permissions.Difference, RuleFor, DropRules;
    more := rules;
    assert es[0..] == es;
    for i := 0 to |es|
      invariant more + DropRules(es[i..], target.State()) == rules + DropRules(es, target.State())
    {
      DropRulesUnfold(es, i, target.State());
      var newPerms := if es[i].meta in target.rules then target.rules[es[i].meta] else "";
      var dropped := Difference(es[i].perms, newPerms);
      more := more + RuleFor(es[i].meta, dropped, target.defaultAllow);
    }
    DropRulesUnfold(es, |es|, target.State());
  }

  /** Second pass: rules for what the target has beyond the old exceptions. */
  method AppendGains(rules: seq<Rule>, es: seq<DeviceRule>, oldRules: map<DeviceMeta, string>, target: Emulator)
    returns (more: seq<Rule>)
    ensures more == rules + GainRules(es, Ruleset(target.defaultAllow, oldRules), target.State())
  {
    hide Permissions.Difference, RuleFor, GainRules;
    more := rules;
    ghost var base, tgt := Ruleset(target.defaultAllow, oldRules), target.State();
    assert es[0..] == es;
    for i := 0 to |es|
      invariant more + GainRules(es[i..], base, tgt) == rules + GainRules(es, base, tgt)
    {
      GainRulesUnfold(es, i, base, tgt);
      var oldPerms := if es[i].meta in oldRules then oldRules[es[i].meta] else "";
      var gained := Difference(es[i].perms, oldPerms);
      more := more + RuleFor(es[i].meta, gained, !target.defaultAllow);
    }
    GainRulesUnfold(es, |es|, base, tgt);
  }

  method Transition(source: Emulator, target: Emulator) returns (rules: seq<Rule>)
    ensures rules == TransitionRules(source.State(), target.State())
  {
    rules := [];
    var oldRules := source.rules;
    if source.defaultAllow || source.defaultAllow != target.defaultAllow {
      rules := [Rule('a', -1, -1, EVERYTHING, target.defaultAllow)];
      oldRules := map[];
    }
    var es := OrderedEntries(oldRules);
    rules := AppendDrops(rules, es, target);
    es := OrderedEntries(target.rules);
    rules := AppendGains(rules, es, oldRules, target);
  }

  // ----- replaying the plan: gains -----

  /** One planned rule, replayed on an emulator in the target's mode, is an addition or a removal. */
  lemma ReplayRuleFor(cur: Ruleset, m: DeviceMeta, perms: string, allow: bool)
    requires m.node in {'b', 'c'}
    ensures Replay(cur, RuleFor(m, perms, allow)) ==
            if IsEmpty(perms) then Applied(cur)
            else if cur.defaultAllow == allow then RemoveRule(cur, DeviceRule(m, perms))
            else Applied(Added(cur, DeviceRule(m, perms)))
  {
    hide Permissions.FromSet;
    var rs := RuleFor(m, perms, allow);
    if rs != [] {
      var r := ApplyRule(cur, rs[0]);
      assert rs[1..] == [];
      assert Replay(cur, rs) == if r.Rejected? then r else Replay(r.state, []);
    }
  }

  ghost predicate Visited(es: seq<DeviceRule>, k: nat, m: DeviceMeta)
    requires k <= |es|
  {
    exists i :: 0 <= i < k && es[i].meta == m
  }

  /** Part way through the second pass: visited patterns are as in the target, the others as kept from before. */
  ghost predicate Gaining(base: Ruleset, target: Ruleset, k: nat, cur: Ruleset) {
    && k <= |Ordered(target.rules)|
    && cur.defaultAllow == target.defaultAllow
    && forall m :: cur.MaskAt(m) ==
                   if Visited(Ordered(target.rules), k, m) then target.MaskAt(m)
                   else base.MaskAt(m).And(target.MaskAt(m))
  }

  lemma OrderedAt(rules: map<DeviceMeta, string>, k: nat)
    requires k < |Ordered(rules)|
    ensures Ordered(rules)[k].meta in rules
    ensures rules[Ordered(rules)[k].meta] == Ordered(rules)[k].perms
  {
    assert Ordered(rules)[k] in Ordered(rules);
  }

  lemma GainStep(base: Ruleset, target: Ruleset, k: nat, cur: Ruleset)
    requires WellFormed(target)
    requires Gaining(base, target, k, cur) && k < |Ordered(target.rules)|
    ensures var r := Replay(cur, Gain(Ordered(target.rules)[k], base, target));
            r.Applied? && Gaining(base, target, k + 1, r.state)
  {
    hide Permissions.FromSet, Permissions.MaskOf, Permissions.Union, Ordered, IsOrdering, Replay;
    var es := Ordered(target.rules);
    var e := es[k];
    OrderedAt(target.rules, k);
    var perms := Difference(e.perms, base.PermsOf(e.meta));
    OperationsAreSetOperations(e.perms, base.PermsOf(e.meta));
    ReplayRuleFor(cur, e.meta, perms, !target.defaultAllow);
    var cur' := Replay(cur, Gain(e, base, target)).state;
    forall m ensures cur'.MaskAt(m) == if m == e.meta then target.MaskAt(m) else cur.MaskAt(m) {
      AddedMask(cur, DeviceRule(e.meta, perms), m);
    }
    forall m ensures Visited(es, k + 1, m) <==> Visited(es, k, m) || m == e.meta {}
  }

  lemma {:induction false} GainsReplay(base: Ruleset, target: Ruleset, k: nat, cur: Ruleset)
    requires WellFormed(target)
    requires Gaining(base, target, k, cur)
    ensures var r := Replay(cur, GainRules(Ordered(target.rules)[k..], base, target));
            r.Applied? && Gaining(base, target, |Ordered(target.rules)|, r.state)
    decreases |Ordered(target.rules)| - k
  {
    hide Permissions.FromSet, Ordered;
    var es := Ordered(target.rules);
    if k < |es| {
      GainStep(base, target, k, cur);
      var first, rest := Gain(es[k], base, target), GainRules(es[k + 1..], base, target);
      assert es[k..][1..] == es[k + 1..];
      ReplayConcat(cur, first, rest);
      GainsReplay(base, target, k + 1, Replay(cur, first).state);
    }
  }

  lemma GainingEnds(base: Ruleset, target: Ruleset, cur: Ruleset, m: DeviceMeta)
    requires Gaining(base, target, |Ordered(target.rules)|, cur)
    ensures cur.MaskAt(m) == target.MaskAt(m)
  {
    hide Permissions.FromSet, Ordered;
    if m in target.rules {
      assert DeviceRule(m, target.rules[m]) in Ordered(target.rules);
    }
  }

  // ----- replaying the plan: drops, from white-list to white-list -----

  ghost predicate WhiteLists(source: Ruleset, target: Ruleset) {
    WellFormed(source) && WellFormed(target) && !source.defaultAllow && !target.defaultAllow
  }

  function Dropped(source: Ruleset, target: Ruleset, m: DeviceMeta): Mask {
    source.MaskAt(m).AndNot(target.MaskAt(m))
  }

  function Kept(source: Ruleset, target: Ruleset, m: DeviceMeta): Mask {
    source.MaskAt(m).And(target.MaskAt(m))
  }

  /** Part way through the first pass: visited patterns hold only what both ends have, the others are untouched. */
  ghost predicate Dropping(source: Ruleset, target: Ruleset, k: nat, cur: Ruleset) {
    && k <= |Ordered(source.rules)|
    && !cur.defaultAllow
    && forall m :: cur.MaskAt(m) ==
                   if Visited(Ordered(source.rules), k, m) then Kept(source, target, m) else source.MaskAt(m)
  }

  /**
   * What a wider pattern holds when `m` is visited depends on the order of the two.
   * The step at `m` is refused when what it drops overlaps what such a pattern then holds.
   */
  ghost predicate RefusedAt(source: Ruleset, target: Ruleset, m: DeviceMeta) {
    exists w ::
      && StrictlyWider(w, m)
      && Dropped(source, target, m).Overlaps(if Less(w, m) then Kept(source, target, w) else source.MaskAt(w))
  }

  lemma VisitedBefore(rules: map<DeviceMeta, string>, k: nat, w: DeviceMeta)
    requires k < |Ordered(rules)|
    ensures Visited(Ordered(rules), k, w) <==> w in rules && Less(w, Ordered(rules)[k].meta)
  {
    hide Permissions.FromSet, Ordered;
    var es := Ordered(rules);
    if i :| 0 <= i < k && es[i].meta == w {
      OrderedAt(rules, i);
    }
    if w in rules && Less(w, es[k].meta) {
      assert DeviceRule(w, rules[w]) in es;
      var i :| 0 <= i < |es| && es[i] == DeviceRule(w, rules[w]);
      assert i != k && !(k < i);
    }
  }

  lemma HeldWhenVisiting(source: Ruleset, target: Ruleset, k: nat, cur: Ruleset, w: DeviceMeta)
    requires Dropping(source, target, k, cur) && k < |Ordered(source.rules)|
    ensures cur.MaskAt(w) ==
            if Less(w, Ordered(source.rules)[k].meta) then Kept(source, target, w) else source.MaskAt(w)
  {
    hide Ordered;
    VisitedBefore(source.rules, k, w);
  }

  lemma RefusedMeansBlocked(source: Ruleset, target: Ruleset, cur: Ruleset, rule: DeviceRule)
    requires MaskOf(rule.perms) == Dropped(source, target, rule.meta)
    requires forall w :: cur.MaskAt(w) == if Less(w, rule.meta) then Kept(source, target, w) else source.MaskAt(w)
    ensures RemoveRule(cur, rule).Applied? <==> !RefusedAt(source, target, rule.meta)
  {
    RemoveRuleCondition(cur, rule);
    hide Permissions.FromSet, MaskOf, Less, RemoveRule, StrictlyWider;
  }

  lemma DropStepRefused(source: Ruleset, target: Ruleset, k: nat, cur: Ruleset)
    requires WhiteLists(source, target)
    requires Dropping(source, target, k, cur) && k < |Ordered(source.rules)|
    ensures Replay(cur, Drop(Ordered(source.rules)[k], target)).Applied? <==>
            !RefusedAt(source, target, Ordered(source.rules)[k].meta)
  {
    assert !cur.defaultAllow;
    hide Permissions.FromSet, Ordered, Dropping, IsOrdering, Replay, RemoveRule;
    var e := Ordered(source.rules)[k];
    OrderedAt(source.rules, k);
    var perms := Difference(e.perms, target.PermsOf(e.meta));
    OperationsAreSetOperations(e.perms, target.PermsOf(e.meta));
    ReplayRuleFor(cur, e.meta, perms, false);
    if !IsEmpty(perms) {
      forall w ensures cur.MaskAt(w) == if Less(w, e.meta) then Kept(source, target, w) else source.MaskAt(w) {
        HeldWhenVisiting(source, target, k, cur, w);
      }
      RefusedMeansBlocked(source, target, cur, DeviceRule(e.meta, perms));
    }
  }

  lemma DropStep(source: Ruleset, target: Ruleset, k: nat, cur: Ruleset)
    requires WhiteLists(source, target)
    requires Dropping(source, target, k, cur) && k < |Ordered(source.rules)|
    requires Replay(cur, Drop(Ordered(source.rules)[k], target)).Applied?
    ensures Dropping(source, target, k + 1, Replay(cur, Drop(Ordered(source.rules)[k], target)).state)
  {
    hide Permissions.FromSet, Ordered, Replay, FirstBlock;
    var es := Ordered(source.rules);
    var e := es[k];
    OrderedAt(source.rules, k);
    var perms := Difference(e.perms, target.PermsOf(e.meta));
    OperationsAreSetOperations(e.perms, target.PermsOf(e.meta));
    ReplayRuleFor(cur, e.meta, perms, false);
    var cur' := Replay(cur, Drop(e, target)).state;
    VisitedBefore(source.rules, k, e.meta);
    forall m ensures cur'.MaskAt(m) == if m == e.meta then Kept(source, target, m) else cur.MaskAt(m) {
      RemovedMask(cur, DeviceRule(e.meta, perms), m);
    }
    forall m ensures Visited(es, k + 1, m) <==> Visited(es, k, m) || m == e.meta {}
  }

  lemma {:induction false} DropsReplay(source: Ruleset, target: Ruleset, k: nat, cur: Ruleset)
    requires WhiteLists(source, target)
    requires Dropping(source, target, k, cur)
    ensures var es := Ordered(source.rules);
            var r := Replay(cur, DropRules(es[k..], target));
            && (r.Applied? <==> forall i :: k <= i < |es| ==> !RefusedAt(source, target, es[i].meta))
            && (r.Applied? ==> Dropping(source, target, |es|, r.state))
    decreases |Ordered(source.rules)| - k
  {
    hide Permissions.FromSet, Ordered;
    var es := Ordered(source.rules);
    if k < |es| {
      DropStepRefused(source, target, k, cur);
      var first, rest := Drop(es[k], target), DropRules(es[k + 1..], target);
      assert es[k..][1..] == es[k + 1..];
      ReplayConcat(cur, first, rest);
      if Replay(cur, first).Applied? {
        DropStep(source, target, k, cur);
        DropsReplay(source, target, k + 1, Replay(cur, first).state);
      }
    }
  }

  lemma DroppingEnds(source: Ruleset, target: Ruleset, cur: Ruleset)
    requires Dropping(source, target, |Ordered(source.rules)|, cur) && !target.defaultAllow
    ensures Gaining(source, target, 0, cur)
  {
    hide Permissions.FromSet, Ordered;
    forall m ensures cur.MaskAt(m) == Kept(source, target, m) {
      if m in source.rules {
        assert DeviceRule(m, source.rules[m]) in Ordered(source.rules);
      }
    }
  }

  lemma WhiteListPlan(source: Ruleset, target: Ruleset)
    requires WhiteLists(source, target)
    ensures TransitionRules(source, target) == Drops(source, target) + Gains(source, target)
    ensures Drops(source, target) == DropRules(Ordered(source.rules)[0..], target)
    ensures Gains(source, target) == GainRules(Ordered(target.rules)[0..], source, target)
    ensures Dropping(source, target, 0, source)
    ensures WellFormed(target) && !target.defaultAllow
  {
    hide Ordered, IsOrdering, DropRules, GainRules;
    assert Ordered(source.rules)[0..] == Ordered(source.rules);
    assert Ordered(target.rules)[0..] == Ordered(target.rules);
    hide Permissions.FromSet, Ordered;
  }

  // ----- main results -----

  /** A plan that starts with a reset goes on with the target's exceptions alone. */
  lemma PlanAfterReset(source: Ruleset, target: Ruleset)
    requires source.defaultAllow || source.defaultAllow != target.defaultAllow
    ensures TransitionRules(source, target) ==
            [ResetRule(target)] + GainRules(Ordered(target.rules), Ruleset(target.defaultAllow, map[]), target)
    ensures ResetRule(target) == Rule('a', -1, -1, "rwm", target.defaultAllow)
  {
    hide Permissions.FromSet, Ordered;
    OrderingOfEmpty(Ordered(map[]));
    assert Drops(source, target) == [];
  }

  /** A reset makes the rest of the plan pure additions, so the replay cannot fail and lands on the target. */
  lemma ResetReplayReachesTarget(source: Ruleset, target: Ruleset)
    requires WellFormed(target) && NeedsReset(source, target)
    ensures var r := Replay(source, TransitionRules(source, target));
            r.Applied? && Gaining(Base(source, target), target, |Ordered(target.rules)|, r.state)
  {
    hide Permissions.FromSet, Ordered;
    var base := Base(source, target);
    PlanAfterReset(source, target);
    ReplayConcat(source, [ResetRule(target)], Gains(source, target));
    assert Replay(source, [ResetRule(target)]) == Applied(base);
    assert Ordered(target.rules)[0..] == Ordered(target.rules);
    GainsReplay(base, target, 0, base);
  }

  /**
   * Between white-lists the replay is refused exactly when, for some old exception, what it loses overlaps
   * what a strictly wider pattern holds at that point of the sorted pass. Device numbers are unrestricted.
   */
  lemma WhiteListReplay(source: Ruleset, target: Ruleset)
    requires WhiteLists(source, target)
    ensures var r := Replay(source, TransitionRules(source, target));
            && (r.Applied? <==> forall m <- source.rules :: !RefusedAt(source, target, m))
            && (r.Applied? ==> Gaining(source, target, |Ordered(target.rules)|, r.state))
  {
    hide *;
    WhiteListPlan(source, target);
    DropsReplay(source, target, 0, source);
    OrderedCovers(source.rules);
    ReplayConcat(source, Drops(source, target), Gains(source, target));
    var dropped := Replay(source, Drops(source, target));
    if dropped.Applied? {
      DroppingEnds(source, target, dropped.state);
      GainsReplay(source, target, 0, dropped.state);
    }
  }

  lemma OrderedCovers(rules: map<DeviceMeta, string>)
    ensures forall m <- rules :: exists i :: 0 <= i < |Ordered(rules)| && Ordered(rules)[i].meta == m
    ensures forall i :: 0 <= i < |Ordered(rules)| ==> Ordered(rules)[i].meta in rules
  {
    hide Ordered;
    forall m | m in rules ensures exists i :: 0 <= i < |Ordered(rules)| && Ordered(rules)[i].meta == m {
      assert DeviceRule(m, rules[m]) in Ordered(rules);
    }
    forall i | 0 <= i < |Ordered(rules)| ensures Ordered(rules)[i].meta in rules {
      OrderedAt(rules, i);
    }
  }

  /** With wildcards as the least numbers, wider patterns are visited first and hold only what both ends keep. */
  lemma WiderIsVisitedFirst(w: DeviceMeta, m: DeviceMeta)
    requires StrictlyWider(w, m) && m.major >= WILDCARD && m.minor >= WILDCARD
    ensures Less(w, m)
  {
  }

  lemma WhiteListReplayCondition(source: Ruleset, target: Ruleset)
    requires WhiteLists(source, target)
    requires forall m <- source.rules :: m.major >= WILDCARD && m.minor >= WILDCARD
    ensures Replay(source, TransitionRules(source, target)).Applied? <==>
            forall m, w :: m in source.rules && StrictlyWider(w, m) ==>
                             !Dropped(source, target, m).Overlaps(Kept(source, target, w))
  {
    WhiteListReplay(source, target);
    forall m, w | m in source.rules && StrictlyWider(w, m) ensures Less(w, m) {
      WiderIsVisitedFirst(w, m);
    }
    forall m | m in source.rules
      ensures RefusedAt(source, target, m) <==>
              exists w :: StrictlyWider(w, m) && Dropped(source, target, m).Overlaps(Kept(source, target, w))
    {
      if w :| StrictlyWider(w, m) && Dropped(source, target, m).Overlaps(Kept(source, target, w)) {
        assert Less(w, m);
      }
    }
  }

  /** Whenever the replay succeeds it ends with the target's policy and the target's permissions for every pattern. */
  lemma ReplayReachesTarget(source: Ruleset, target: Ruleset)
    requires WellFormed(source) && WellFormed(target)
    ensures var r := Replay(source, TransitionRules(source, target));
            && (source.defaultAllow || target.defaultAllow ==> r.Applied?)
            && (r.Applied? ==>
                  && r.state.defaultAllow == target.defaultAllow
                  && forall m :: r.state.PermsOf(m) == target.PermsOf(m))
  {
    hide Permissions.FromSet, Ordered;
    if NeedsReset(source, target) {
      ResetReplayReachesTarget(source, target);
    } else {
      WhiteListReplay(source, target);
    }
    var r := Replay(source, TransitionRules(source, target));
    if r.Applied? {
      ReplayKeepsWellFormed(source, TransitionRules(source, target));
      forall m ensures r.state.PermsOf(m) == target.PermsOf(m) {
        GainingEnds(Base(source, target), target, r.state, m);
        SamePerms(r.state, target, m);
      }
    }
  }

  /**
   * What devices.list does not show cannot survive: a plan made for a black-list, or for another mode, takes every
   * state to the target, whatever exceptions that state has. It is never refused.
   */
  lemma HiddenExceptionsAreReset(source: Ruleset, target: Ruleset, hidden: Ruleset)
    requires WellFormed(target) && (source.defaultAllow || source.defaultAllow != target.defaultAllow)
    ensures var r := Replay(hidden, TransitionRules(source, target));
            && r.Applied?
            && r.state.defaultAllow == target.defaultAllow
            && forall m :: r.state.PermsOf(m) == target.PermsOf(m)
  {
    hide Permissions.FromSet, Ordered, DropRules, GainRules;
    var empty := Ruleset(!target.defaultAllow, map[]);
    PlanAfterReset(source, target);
    PlanAfterReset(empty, target);
    var rest := GainRules(Ordered(target.rules), Ruleset(target.defaultAllow, map[]), target);
    WildcardRuleForgets(hidden, false, [], ResetRule(target), rest);
    WildcardRuleForgets(empty, false, [], ResetRule(target), rest);
    assert [] + [ResetRule(target)] + rest == [ResetRule(target)] + rest;
    ReplayReachesTarget(empty, target);
  }

  lemma SamePerms(s: Ruleset, t: Ruleset, m: DeviceMeta)
    requires WellFormed(s) && WellFormed(t) && s.MaskAt(m) == t.MaskAt(m)
    ensures s.PermsOf(m) == t.PermsOf(m)
  {
    assert IsValid("");
    ValidIsDeterminedByMask(s.PermsOf(m), t.PermsOf(m));
  }

  // ----- every intermediate state -----

  /** No pattern is ever torn: it holds its old permissions, its new ones, or what the two share. */
  ghost predicate NotTorn(source: Ruleset, target: Ruleset, cur: Ruleset) {
    && !cur.defaultAllow
    && forall m ::
         || cur.MaskAt(m) == source.MaskAt(m)
         || cur.MaskAt(m) == Kept(source, target, m)
         || cur.MaskAt(m) == target.MaskAt(m)
  }

  lemma DroppingIsNotTorn(source: Ruleset, target: Ruleset, k: nat, cur: Ruleset)
    requires Dropping(source, target, k, cur)
    ensures NotTorn(source, target, cur) && k <= |Ordered(source.rules)|
  {
    hide Ordered;
  }

  lemma GainingIsNotTorn(base: Ruleset, target: Ruleset, k: nat, cur: Ruleset)
    requires Gaining(base, target, k, cur) && !target.defaultAllow
    ensures NotTorn(base, target, cur) && k <= |Ordered(target.rules)|
  {
    hide Ordered;
  }

  lemma ReplayNothing(cur: Ruleset)
    ensures Replay(cur, []) == Applied(cur)
  {
  }

  lemma ReplayPrefix(cur: Ruleset, first: seq<Rule>, rest: seq<Rule>, n: nat)
    requires |first| <= n <= |first| + |rest|
    ensures Replay(cur, (first + rest)[..n]) ==
            if Replay(cur, first).Rejected? then Replay(cur, first)
            else Replay(Replay(cur, first).state, rest[..n - |first|])
  {
    hide Replay;
    assert (first + rest)[..n] == first + rest[..n - |first|];
    ReplayConcat(cur, first, rest[..n - |first|]);
  }

  lemma {:induction false} DropsPrefix(source: Ruleset, target: Ruleset, k: nat, cur: Ruleset, n: nat)
    requires WhiteLists(source, target)
    requires Dropping(source, target, k, cur)
    requires n <= |DropRules(Ordered(source.rules)[k..], target)|
    ensures var r := Replay(cur, DropRules(Ordered(source.rules)[k..], target)[..n]);
            r.Applied? ==> NotTorn(source, target, r.state)
    decreases |Ordered(source.rules)| - k
  {
    hide *;
    DroppingIsNotTorn(source, target, k, cur);
    ReplayNothing(cur);
    var es := Ordered(source.rules);
    DropRulesUnfold(es, k, target);
    if k < |es| && n > 0 {
      var first, rest := Drop(es[k], target), DropRules(es[k + 1..], target);
      ReplayPrefix(cur, first, rest, n);
      if Replay(cur, first).Applied? {
        DropStep(source, target, k, cur);
        DropsPrefix(source, target, k + 1, Replay(cur, first).state, n - |first|);
      }
    }
  }

  lemma {:induction false} GainsPrefix(base: Ruleset, target: Ruleset, k: nat, cur: Ruleset, n: nat)
    requires WellFormed(target) && !target.defaultAllow
    requires Gaining(base, target, k, cur)
    requires n <= |GainRules(Ordered(target.rules)[k..], base, target)|
    ensures var r := Replay(cur, GainRules(Ordered(target.rules)[k..], base, target)[..n]);
            r.Applied? && NotTorn(base, target, r.state)
    decreases |Ordered(target.rules)| - k
  {
    hide *;
    GainingIsNotTorn(base, target, k, cur);
    ReplayNothing(cur);
    var es := Ordered(target.rules);
    GainRulesUnfold(es, k, base, target);
    if k < |es| && n > 0 {
      var first, rest := Gain(es[k], base, target), GainRules(es[k + 1..], base, target);
      GainStep(base, target, k, cur);
      ReplayPrefix(cur, first, rest, n);
      GainsPrefix(base, target, k + 1, Replay(cur, first).state, n - |first|);
    }
  }

  /** At every point of a white-list replay, successful or not, no pattern is torn. */
  lemma EveryPrefixNotTorn(source: Ruleset, target: Ruleset, n: nat)
    requires WhiteLists(source, target)
    requires n <= |TransitionRules(source, target)|
    ensures var r := Replay(source, TransitionRules(source, target)[..n]);
            r.Applied? ==> NotTorn(source, target, r.state)
  {
    hide *;
    WhiteListPlan(source, target);
    var drops, gains := Drops(source, target), Gains(source, target);
    if n <= |drops| {
      assert (drops + gains)[..n] == drops[..n];
      DropsPrefix(source, target, 0, source, n);
    } else {
      ReplayPrefix(source, drops, gains, n);
      DropsReplay(source, target, 0, source);
      if Replay(source, drops).Applied? {
        DroppingEnds(source, target, Replay(source, drops).state);
        GainsPrefix(source, target, 0, Replay(source, drops).state, n - |drops|);
      }
    }
  }

  lemma NotTornAccess(source: Ruleset, target: Ruleset, cur: Ruleset, d: Device, access: Mask)
    requires NotTorn(source, target, cur) && !access.IsNone()
    ensures Excepted(cur, d, access) ==> Excepted(source, d, access) || Excepted(target, d, access)
    ensures (exists m :: m in source.rules && Matches(m, d) && access.Within(Kept(source, target, m))) ==>
              Excepted(cur, d, access)
  {
    if Excepted(cur, d, access) {
      var m :| m in cur.rules && Matches(m, d) && access.Within(cur.MaskAt(m));
      assert access.Within(source.MaskAt(m)) || access.Within(target.MaskAt(m));
      assert m in source.rules || m in target.rules;
    }
    if m :| m in source.rules && Matches(m, d) && access.Within(Kept(source, target, m)) {
      assert access.Within(cur.MaskAt(m));
      assert m in cur.rules;
    }
  }

  /**
   * Seen from a process: no intermediate state admits an access that neither end admits,
   * and an access that one exception admits at both ends is admitted throughout.
   */
  lemma NoSpuriousAccess(source: Ruleset, target: Ruleset, n: nat, d: Device, access: Mask)
    requires WhiteLists(source, target)
    requires n <= |TransitionRules(source, target)|
    requires Replay(source, TransitionRules(source, target)[..n]).Applied?
    requires !access.IsNone()
    ensures var cur := Replay(source, TransitionRules(source, target)[..n]).state;
            && (Excepted(cur, d, access) ==> Excepted(source, d, access) || Excepted(target, d, access))
            && ((exists m :: m in source.rules && Matches(m, d) && access.Within(Kept(source, target, m))) ==>
                  Excepted(cur, d, access))
  {
    hide *;
    EveryPrefixNotTorn(source, target, n);
    NotTornAccess(source, target, Replay(source, TransitionRules(source, target)[..n]).state, d, access);
  }

  // ----- no shorter plan -----

  function MetaOf(r: Rule): DeviceMeta {
    DeviceMeta(r.node, r.major, r.minor)
  }

  /** The patterns a rule list allows or denies. */
  ghost function Touched(rules: seq<Rule>): set<(DeviceMeta, bool)> {
    set r | r in rules :: (MetaOf(r), r.allow)
  }

  ghost predicate NoReset(rules: seq<Rule>) {
    forall r <- rules :: r.node != 'a'
  }

  lemma {:induction false} TouchedIsNoLonger(rules: seq<Rule>)
    ensures |Touched(rules)| <= |rules|
  {
    if rules != [] {
      TouchedIsNoLonger(rules[1..]);
      assert rules == [rules[0]] + rules[1..];
      assert Touched(rules) == Touched(rules[1..]) + {(MetaOf(rules[0]), rules[0].allow)};
    }
  }

  /** Without a reset and without a rule that denies (allows) `m`, its permissions only grow (shrink). */
  lemma {:induction false} UntouchedIsMonotone(s: Ruleset, rules: seq<Rule>, m: DeviceMeta)
    requires !s.defaultAllow && NoReset(rules) && Replay(s, rules).Applied?
    ensures !Replay(s, rules).state.defaultAllow
    ensures (m, false) !in Touched(rules) ==> s.MaskAt(m).Within(Replay(s, rules).state.MaskAt(m))
    ensures (m, true) !in Touched(rules) ==> Replay(s, rules).state.MaskAt(m).Within(s.MaskAt(m))
    decreases |rules|
  {
    if rules != [] {
      var r := rules[0];
      assert r in rules;
      var s' := ApplyRule(s, r).state;
      var inner := DeviceRule(MetaOf(r), r.perms);
      if r.allow { AddedMask(s, inner, m); } else { RemovedMask(s, inner, m); }
      assert (MetaOf(r), r.allow) in Touched(rules);
      UntouchedIsMonotone(s', rules[1..], m);
      assert forall t :: t in Touched(rules[1..]) ==> t in Touched(rules);
    }
  }

  lemma SortedTail(es: seq<DeviceRule>)
    requires Sorted(es) && es != []
    ensures Sorted(es[1..])
    ensures forall e <- es[1..] :: Less(es[0].meta, e.meta)
    ensures forall e :: e in es <==> e == es[0] || e in es[1..]
  {
    hide Less;
    assert es == [es[0]] + es[1..];
  }

  /** A planned rule exists for an entry exactly when the entry changes, and no two are for the same pattern. */
  ghost predicate OnePerEntry(rules: seq<Rule>, es: seq<DeviceRule>, allow: bool, planned: DeviceRule -> seq<Rule>) {
    && (forall t <- Touched(rules) :: t.1 == allow && exists e <- es :: e.meta == t.0 && planned(e) != [])
    && |Touched(rules)| == |rules|
  }

  lemma OnePerEntryStep(rest: seq<Rule>, es: seq<DeviceRule>, allow: bool, planned: DeviceRule -> seq<Rule>)
    requires es != [] && Sorted(es)
    requires OnePerEntry(rest, es[1..], allow, planned)
    requires |planned(es[0])| <= 1 && forall r <- planned(es[0]) :: MetaOf(r) == es[0].meta && r.allow == allow
    ensures OnePerEntry(planned(es[0]) + rest, es, allow, planned)
  {
    SortedTail(es);
    hide Sorted;
    DistinctHead(planned(es[0]), rest, es[0].meta, allow, es[1..]);
  }

  lemma {:induction false} DropRulesTouch(es: seq<DeviceRule>, target: Ruleset)
    requires Sorted(es)
    ensures OnePerEntry(DropRules(es, target), es, target.defaultAllow, e => Drop(e, target))
  {
    if es != [] {
      SortedTail(es);
      DropRulesTouch(es[1..], target);
      hide Permissions.Difference, Sorted, OnePerEntry;
      OnePerEntryStep(DropRules(es[1..], target), es, target.defaultAllow, e => Drop(e, target));
    }
  }

  lemma {:induction false} GainRulesTouch(es: seq<DeviceRule>, base: Ruleset, target: Ruleset)
    requires Sorted(es)
    ensures OnePerEntry(GainRules(es, base, target), es, !target.defaultAllow, e => Gain(e, base, target))
  {
    if es != [] {
      SortedTail(es);
      GainRulesTouch(es[1..], base, target);
      hide Permissions.Difference, Sorted, OnePerEntry;
      OnePerEntryStep(GainRules(es[1..], base, target), es, !target.defaultAllow, e => Gain(e, base, target));
    }
  }

  lemma DistinctHead(head: seq<Rule>, rest: seq<Rule>, m: DeviceMeta, allow: bool, es: seq<DeviceRule>)
    requires |head| <= 1 && forall r <- head :: MetaOf(r) == m && r.allow == allow
    requires forall e <- es :: Less(m, e.meta)
    requires forall t <- Touched(rest) :: exists e <- es :: e.meta == t.0
    requires |Touched(rest)| == |rest|
    ensures |Touched(head + rest)| == |head + rest|
    ensures Touched(head + rest) == Touched(rest) + (if head == [] then {} else {(m, allow)})
  {
    if head == [] {
      assert head + rest == rest;
    } else {
      assert head == [head[0]] && head[0] in head;
      assert Touched(head + rest) == Touched(rest) + {(m, allow)};
      assert (m, allow) !in Touched(rest);
    }
  }

  /** `rules` avoid resets and take `source` to `target`. */
  ghost predicate Reaches(source: Ruleset, rules: seq<Rule>, target: Ruleset) {
    && NoReset(rules)
    && Replay(source, rules).Applied?
    && forall m :: Replay(source, rules).state.MaskAt(m) == target.MaskAt(m)
  }

  lemma ChangeIsTouched(source: Ruleset, rules: seq<Rule>, target: Ruleset, m: DeviceMeta)
    requires !source.defaultAllow && Reaches(source, rules, target)
    ensures !source.MaskAt(m).Within(target.MaskAt(m)) ==> (m, false) in Touched(rules)
    ensures !target.MaskAt(m).Within(source.MaskAt(m)) ==> (m, true) in Touched(rules)
  {
    UntouchedIsMonotone(source, rules, m);
  }

  lemma DropsAreNeeded(source: Ruleset, target: Ruleset, rules: seq<Rule>)
    requires WhiteLists(source, target) && Reaches(source, rules, target)
    ensures |Touched(Drops(source, target))| == |Drops(source, target)|
    ensures forall t <- Touched(Drops(source, target)) :: t in Touched(rules) && t.1 == false
  {
    var es := Ordered(source.rules);
    DropRulesTouch(es, target);
    hide Ordered, DropRules, Touched, Reaches, Replay, Permissions.FromSet;
    forall t | t in Touched(Drops(source, target)) ensures t in Touched(rules) {
      var e :| e in es && e.meta == t.0 && Drop(e, target) != [];
      OperationsAreSetOperations(e.perms, target.PermsOf(e.meta));
      ChangeIsTouched(source, rules, target, e.meta);
    }
  }

  lemma GainsAreNeeded(source: Ruleset, target: Ruleset, rules: seq<Rule>)
    requires WhiteLists(source, target) && Reaches(source, rules, target)
    ensures |Touched(Gains(source, target))| == |Gains(source, target)|
    ensures forall t <- Touched(Gains(source, target)) :: t in Touched(rules) && t.1 == true
  {
    var es := Ordered(target.rules);
    GainRulesTouch(es, source, target);
    hide Ordered, GainRules, Touched, Reaches, Replay, Permissions.FromSet;
    forall t | t in Touched(Gains(source, target)) ensures t in Touched(rules) {
      var e :| e in es && e.meta == t.0 && Gain(e, source, target) != [];
      OperationsAreSetOperations(e.perms, source.PermsOf(e.meta));
      ChangeIsTouched(source, rules, target, e.meta);
    }
  }

  /** Between white-lists no reset-free rule list that reaches the target is shorter than the plan. */
  lemma PlanIsShortest(source: Ruleset, target: Ruleset, rules: seq<Rule>)
    requires WhiteLists(source, target) && Reaches(source, rules, target)
    ensures |TransitionRules(source, target)| <= |rules|
  {
    hide *;
    WhiteListPlan(source, target);
    var drops, gains := Touched(Drops(source, target)), Touched(Gains(source, target));
    DropsAreNeeded(source, target, rules);
    GainsAreNeeded(source, target, rules);
    assert drops !! gains;
    SubsetIsSmaller(drops + gains, Touched(rules));
    TouchedIsNoLonger(rules);
  }

  lemma {:induction false} SubsetIsSmaller<T>(a: set<T>, b: set<T>)
    requires a <= b
    ensures |a| <= |b|
  {
    if a != {} {
      var x :| x in a;
      SubsetIsSmaller(a - {x}, b - {x});
    }
  }

  /** For example, dropping one device from under a wildcard that stays is refused. */
  lemma NarrowDropIsRefused(source: Ruleset, target: Ruleset)
    requires source == Ruleset(false, map[DeviceMeta('c', WILDCARD, WILDCARD) := "r", DeviceMeta('c', 1, 3) := "r"])
    requires target == Ruleset(false, map[DeviceMeta('c', WILDCARD, WILDCARD) := "r"])
    ensures Replay(source, TransitionRules(source, target)).Rejected?
  {
    hide Replay, TransitionRules;
    var m, w := DeviceMeta('c', 1, 3), DeviceMeta('c', WILDCARD, WILDCARD);
    assert 'r' in "r" && 'w' !in "r" && 'm' !in "r";
    assert IsValid("r");
    WhiteListReplayCondition(source, target);
    assert m in source.rules && StrictlyWider(w, m);
    assert Dropped(source, target, m).Overlaps(Kept(source, target, w));
  }
}
