/**
 * The rewrite of a container's seccomp filter. `listed` stands for the runtime's own list of allowed system
 * calls; every result holds for every such list.
 */
module Seccomp {

  datatype Arch = X86_64 | Aarch64 | Arm | OtherArch(name: string)

  datatype Action = Allow | Errno | Kill | OtherAction(name: string)

  datatype Arg = Arg(index: nat, op: string, value: int, valueTwo: int)

  /** One rule; without arguments it is unconditional. */
  datatype Rule = Rule(names: seq<string>, action: Action, errnoRet: int, args: seq<Arg>)

  predicate Blocks(action: Action) {
    action == Errno || action == Kill
  }

  predicate Supported(archs: seq<Arch>) {
    exists a <- archs :: a == X86_64 || a == Aarch64 || a == Arm
  }

  /** Names whose argument restrictions are kept. */
  predicate KeepsArgs(name: string) {
    name == "personality" || name == "socket"
  }

  // ----- the rewrite -----

  /** The names that some rule with an action of the given kind lists. */
  function NamesWith(rules: seq<Rule>, blocking: bool): set<string> {
    set r <- rules, n <- r.names | if blocking then Blocks(r.action) else r.action == Allow :: n
  }

  function Kept(names: seq<string>, rm: set<string>): (r: seq<string>)
    ensures forall n :: n in r <==> n in names && n !in rm
  {
    if names == [] then []
    else (if names[0] in rm then [] else [names[0]]) + Kept(names[1..], rm)
  }

  function StripRule(r: Rule, rm: set<string>): seq<Rule> {
    if !Blocks(r.action) then [r]
    else if Kept(r.names, rm) == [] then []
    else [r.(names := Kept(r.names, rm))]
  }

  function StripAll(rules: seq<Rule>, rm: set<string>): seq<Rule> {
    if rules == [] then [] else StripRule(rules[0], rm) + StripAll(rules[1..], rm)
  }

  function Strip(rules: seq<Rule>, rm: set<string>): seq<Rule> {
    if rm == {} then rules else StripAll(rules, rm)
  }

  function Allowing(name: string): Rule {
    Rule([name], Allow, 0, [])
  }

  function AddAll(order: seq<string>): seq<Rule> {
    if order == [] then [] else [Allowing(order[0])] + AddAll(order[1..])
  }

  predicate Restrictable(r: Rule) {
    forall n <- r.names :: KeepsArgs(n)
  }

  function Unrestrict(r: Rule): Rule {
    if Restrictable(r) then r else r.(args := [])
  }

  function UnrestrictAll(rules: seq<Rule>): seq<Rule> {
    if rules == [] then [] else [Unrestrict(rules[0])] + UnrestrictAll(rules[1..])
  }

  function ToAdd(rules: seq<Rule>, listed: set<string>): set<string> {
    listed - NamesWith(rules, false)
  }

  /** The order in which the added names come is up to the iteration over a set. */
  ghost predicate Enumerates(order: seq<string>, names: set<string>) {
    && (forall n :: n in order <==> n in names)
    && (forall i, j :: 0 <= i < j < |order| ==> order[i] != order[j])
  }

  /** With a default that blocks: listed names are unblocked and allowed, and restrictions dropped. */
  function WhiteListed(rules: seq<Rule>, listed: set<string>, order: seq<string>): seq<Rule> {
    UnrestrictAll(Strip(rules, NamesWith(rules, true) * listed) + AddAll(order))
  }

  /** With a default that allows: names that are not listed are unblocked. */
  function BlackListed(rules: seq<Rule>, listed: set<string>): seq<Rule> {
    Strip(rules, NamesWith(rules, true) - listed)
  }

  lemma {:induction false} StripSnoc(rules: seq<Rule>, r: Rule, rm: set<string>)
    ensures StripAll(rules + [r], rm) == StripAll(rules, rm) + StripRule(r, rm)
  {
    hide StripRule;
    if rules == [] {
      assert rules + [r] == [r];
      assert [r][1..] == [];
    } else {
      assert (rules + [r])[1..] == rules[1..] + [r];
      StripSnoc(rules[1..], r, rm);
    }
  }

  lemma {:induction false} KeptSnoc(names: seq<string>, n: string, rm: set<string>)
    ensures Kept(names + [n], rm) == Kept(names, rm) + (if n in rm then [] else [n])
  {
    if names == [] {
      assert names + [n] == [n];
      assert [n][1..] == [];
    } else {
      assert (names + [n])[1..] == names[1..] + [n];
      KeptSnoc(names[1..], n, rm);
      var first, last := if names[0] in rm then [] else [names[0]], if n in rm then [] else [n];
      assert first + (Kept(names[1..], rm) + last) == (first + Kept(names[1..], rm)) + last;
    }
  }

  lemma {:induction false} AddSnoc(order: seq<string>, n: string)
    ensures AddAll(order + [n]) == AddAll(order) + [Allowing(n)]
  {
    if order == [] {
      assert order + [n] == [n];
    } else {
      assert (order + [n])[1..] == order[1..] + [n];
      AddSnoc(order[1..], n);
    }
  }

  lemma {:induction false} UnrestrictAt(rules: seq<Rule>)
    ensures |UnrestrictAll(rules)| == |rules|
    ensures forall i :: 0 <= i < |rules| ==> UnrestrictAll(rules)[i] == Unrestrict(rules[i])
  {
    hide Unrestrict;
    if rules != [] {
      UnrestrictAt(rules[1..]);
    }
  }

  method KeepNames(names: seq<string>, rm: set<string>) returns (kept: seq<string>)
    ensures kept == Kept(names, rm)
  {
    kept := [];
    for j := 0 to |names|
      invariant kept == Kept(names[..j], rm)
    {
      KeptSnoc(names[..j], names[j], rm);
      assert names[..j + 1] == names[..j] + [names[j]];
      if names[j] !in rm {
        kept := kept + [names[j]];
      }
    }
    assert names[..|names|] == names;
  }

  class Filter {
    var defaultAction: Action
    var archs: seq<Arch>
    var rules: seq<Rule>

    constructor (defaultAction: Action, archs: seq<Arch>, rules: seq<Rule>)
      ensures this.defaultAction == defaultAction && this.archs == archs && this.rules == rules
    {
      this.defaultAction, this.archs, this.rules := defaultAction, archs, rules;
    }

    /** The names that rules allow, and those that rules block. */
    method Categorize() returns (allowSet: set<string>, disallowSet: set<string>)
      ensures allowSet == NamesWith(rules, false) && disallowSet == NamesWith(rules, true)
    {
      allowSet, disallowSet := {}, {};
      for i := 0 to |rules|
        invariant allowSet == NamesWith(rules[..i], false) && disallowSet == NamesWith(rules[..i], true)
      {
        var r := rules[i];
        assert rules[..i + 1] == rules[..i] + [r];
        match r.action
        case Allow => allowSet := allowSet + set n <- r.names;
        case Errno | Kill => disallowSet := disallowSet + set n <- r.names;
        case OtherAction(_) =>
      }
      assert rules[..|rules|] == rules;
    }

    /** Drops blocked names; rules left without names go away. */
    method RemoveBlocked(rm: set<string>)
      modifies this`rules
      ensures rules == Strip(old(rules), rm)
    {
      if rm == {} {
        return;
      }
      var was := rules;
      var kept := [];
      for i := 0 to |was|
        invariant kept == StripAll(was[..i], rm)
      {
        StripSnoc(was[..i], was[i], rm);
        assert was[..i + 1] == was[..i] + [was[i]];
        var r := was[i];
        if Blocks(r.action) {
          var names := KeepNames(r.names, rm);
          if |names| > 0 {
            kept := kept + [r.(names := names)];
          }
        } else {
          kept := kept + [r];
        }
      }
      assert was[..|was|] == was;
      rules := kept;
    }

    /** Allows each of the names, in some order. */
    method AddAllowed(names: set<string>) returns (ghost order: seq<string>)
      modifies this`rules
      ensures Enumerates(order, names)
      ensures rules == old(rules) + AddAll(order)
    {
      var left := names;
      order := [];
      while left != {}
        invariant left <= names && Enumerates(order, names - left)
        invariant rules == old(rules) + AddAll(order)
        decreases left
      {
        var n :| n in left;
        left := left - {n};
        AddSnoc(order, n);
        order := order + [n];
        rules := rules + [Allowing(n)];
      }
    }

    /** Drops the arguments of every rule that has a name whose restrictions are not kept. */
    method DropArgs()
      modifies this`rules
      ensures rules == UnrestrictAll(old(rules))
    {
      var was := rules;
      UnrestrictAt(was);
      for i := 0 to |was|
        invariant |rules| == |was|
        invariant forall k :: 0 <= k < |was| ==> rules[k] == if k < i then Unrestrict(was[k]) else was[k]
      {
        var r := was[i];
        for j := 0 to |r.names|
          invariant |rules| == |was|
          invariant forall k :: 0 <= k < |was| && k != i ==> rules[k] == if k < i then Unrestrict(was[k]) else was[k]
          invariant rules[i] == if forall n <- r.names[..j] :: KeepsArgs(n) then r else r.(args := [])
        {
          if !KeepsArgs(r.names[j]) {
            rules := rules[i := rules[i].(args := [])];
          }
          assert r.names[..j + 1] == r.names[..j] + [r.names[j]];
        }
        assert r.names[..|r.names|] == r.names;
      }
    }

    method CfgSeccomp(listed: set<string>) returns (ok: bool, ghost order: seq<string>)
      modifies this`rules
      ensures ok <==> (X86_64 !in archs && Aarch64 !in archs && Arm !in archs) ||
                      defaultAction == Allow || defaultAction == Errno || defaultAction == Kill
      ensures !Supported(archs) || !ok ==> rules == old(rules)
      ensures Supported(archs) && Blocks(defaultAction) ==>
                && Enumerates(order, ToAdd(old(rules), listed))
                && rules == WhiteListed(old(rules), listed, order)
      ensures Supported(archs) && defaultAction == Allow ==> rules == BlackListed(old(rules), listed)
    {
      order := [];
      if !Supported(archs) {
        return true, [];
      }
      if defaultAction != Allow && defaultAction != Errno && defaultAction != Kill {
        return false, [];
      }
      var allowSet, disallowSet := Categorize();
      if Blocks(defaultAction) {
        RemoveBlocked(disallowSet * listed);
        order := AddAllowed(listed - allowSet);
        DropArgs();
      } else {
        RemoveBlocked(disallowSet - listed);
      }
      return true, order;
    }
  }

  // ----- what the rewrite means -----

  function ActionOf(r: Rule, name: string): seq<Action> {
    if name in r.names then [r.action] else []
  }

  /** The actions of the rules that list a name, in order. */
  function Actions(rules: seq<Rule>, name: string): seq<Action> {
    if rules == [] then [] else ActionOf(rules[0], name) + Actions(rules[1..], name)
  }

  function Unblocked(actions: seq<Action>): seq<Action> {
    if actions == [] then []
    else (if Blocks(actions[0]) then [] else [actions[0]]) + Unblocked(actions[1..])
  }

  lemma {:induction false} UnblockedOf(r: Rule, name: string, rest: seq<Action>)
    ensures Unblocked(ActionOf(r, name) + rest) ==
            (if Blocks(r.action) then [] else ActionOf(r, name)) + Unblocked(rest)
  {
    if name in r.names {
      assert ([r.action] + rest)[1..] == rest;
    } else {
      assert [] + rest == rest;
      assert [] + Unblocked(rest) == Unblocked(rest);
    }
  }

  lemma {:induction false} ActionsConcat(a: seq<Rule>, b: seq<Rule>, name: string)
    ensures Actions(a + b, name) == Actions(a, name) + Actions(b, name)
  {
    hide ActionOf;
    if a == [] {
      assert a + b == b;
      assert [] + Actions(b, name) == Actions(b, name);
    } else {
      assert (a + b)[1..] == a[1..] + b;
      ActionsConcat(a[1..], b, name);
      assert ActionOf(a[0], name) + (Actions(a[1..], name) + Actions(b, name)) ==
             (ActionOf(a[0], name) + Actions(a[1..], name)) + Actions(b, name);
    }
  }

  lemma {:induction false} ActionsUnrestricted(rules: seq<Rule>, name: string)
    ensures Actions(UnrestrictAll(rules), name) == Actions(rules, name)
  {
    if rules != [] {
      ActionsUnrestricted(rules[1..], name);
      assert UnrestrictAll(rules)[1..] == UnrestrictAll(rules[1..]);
    }
  }

  lemma {:induction false} ActionsStripped(rules: seq<Rule>, rm: set<string>, name: string)
    ensures Actions(StripAll(rules, rm), name) ==
            if name in rm then Unblocked(Actions(rules, name)) else Actions(rules, name)
  {
    hide StripRule, ActionOf, Unblocked;
    if rules == [] {
      NoneUnblocked();
    } else {
      var r := rules[0];
      ActionsStripped(rules[1..], rm, name);
      ActionsConcat(StripRule(r, rm), StripAll(rules[1..], rm), name);
      ActionsStripRule(r, rm, name);
      UnblockedOf(r, name, Actions(rules[1..], name));
    }
  }

  lemma NoneUnblocked()
    ensures Unblocked([]) == []
  {
  }

  lemma ActionsStripRule(r: Rule, rm: set<string>, name: string)
    ensures Actions(StripRule(r, rm), name) == if name in rm && Blocks(r.action) then [] else ActionOf(r, name)
  {
    var rest := StripRule(r, rm);
    if rest != [] {
      assert rest[1..] == [];
      assert Actions(rest, name) == ActionOf(rest[0], name) + [];
    }
  }

  lemma {:induction false} NothingToUnblock(rules: seq<Rule>, name: string)
    requires name !in NamesWith(rules, true)
    ensures Unblocked(Actions(rules, name)) == Actions(rules, name)
  {
    hide Unblocked;
    if rules == [] {
      NoneUnblocked();
    } else {
      assert NamesWith(rules[1..], true) <= NamesWith(rules, true);
      NothingToUnblock(rules[1..], name);
      UnblockedOf(rules[0], name, Actions(rules[1..], name));
      assert name in rules[0].names && Blocks(rules[0].action) ==> name in NamesWith(rules, true);
    }
  }

  lemma {:induction false} ActionsAdded(order: seq<string>, name: string)
    requires forall i, j :: 0 <= i < j < |order| ==> order[i] != order[j]
    ensures Actions(AddAll(order), name) == if name in order then [Allow] else []
  {
    if order != [] {
      assert AddAll(order)[1..] == AddAll(order[1..]);
      ActionsAdded(order[1..], name);
    }
  }

  /**
   * With a default that blocks, the rewrite does to every name exactly this: a listed name loses its blocking
   * actions and, if no rule allowed it, gains one that does; the actions of every other name stay as they were,
   * in the same order.
   */
  lemma ActionsAfterWhiteListing(rules: seq<Rule>, listed: set<string>, order: seq<string>, name: string)
    requires Enumerates(order, ToAdd(rules, listed))
    ensures Actions(WhiteListed(rules, listed, order), name) ==
            if name in listed
            then Unblocked(Actions(rules, name)) + (if name in NamesWith(rules, false) then [] else [Allow])
            else Actions(rules, name)
  {
    hide StripAll, AddAll, NamesWith, UnrestrictAll;
    var rm := NamesWith(rules, true) * listed;
    var stripped := Strip(rules, rm);
    ActionsUnrestricted(stripped + AddAll(order), name);
    ActionsConcat(stripped, AddAll(order), name);
    ActionsAdded(order, name);
    ActionsStripped(rules, rm, name);
    if name !in NamesWith(rules, true) {
      NothingToUnblock(rules, name);
    }
  }

  lemma {:induction false} ActionsAreNames(rules: seq<Rule>, name: string, action: Action)
    ensures action in Actions(rules, name) <==> exists r <- rules :: name in r.names && r.action == action
  {
    if rules != [] {
      ActionsAreNames(rules[1..], name, action);
      assert rules == [rules[0]] + rules[1..];
    }
  }

  lemma {:induction false} UnblockedIs(actions: seq<Action>, action: Action)
    ensures action in Unblocked(actions) <==> action in actions && !Blocks(action)
  {
    if actions != [] {
      UnblockedIs(actions[1..], action);
      assert actions == [actions[0]] + actions[1..];
    }
  }

  lemma UnrestrictedRules(rules: seq<Rule>, r: Rule)
    requires r in UnrestrictAll(rules)
    ensures r.args == [] || Restrictable(r)
  {
    UnrestrictAt(rules);
  }

  /**
   * Coverage: every listed name but the two whose restrictions are kept has an unconditional rule that allows it,
   * those two have a rule that allows them, and no listed name is blocked any more.
   */
  lemma ListedNamesAreAllowed(rules: seq<Rule>, listed: set<string>, order: seq<string>, name: string)
    requires Enumerates(order, ToAdd(rules, listed)) && name in listed
    ensures var after := WhiteListed(rules, listed, order);
            && (exists r <- after ::
                  name in r.names && r.action == Allow && (name == "personality" || name == "socket" || r.args == []))
            && (forall r <- after :: name in r.names ==> r.action != Errno && r.action != Kill)
  {
    hide WhiteListed, Actions, Unblocked, Restrictable;
    var after := WhiteListed(rules, listed, order);
    ActionsAfterWhiteListing(rules, listed, order, name);
    AllowedBefore(rules, name);
    UnblockedIs(Actions(rules, name), Allow);
    ActionsAreNames(after, name, Allow);
    var r :| r in after && name in r.names && r.action == Allow;
    ArgsAfter(rules, listed, order, r, name);
    forall r | r in after && name in r.names
      ensures !Blocks(r.action)
    {
      ActionsAreNames(after, name, r.action);
      UnblockedIs(Actions(rules, name), r.action);
    }
  }

  /**
   * What becomes of a rule that does not block: its arguments stay exactly when it has no names other than the two,
   * and the rest of it stays in any case.
   */
  lemma RestrictionsOfTwoNamesStay(rules: seq<Rule>, listed: set<string>, order: seq<string>, r: Rule)
    requires r in rules && !Blocks(r.action)
    ensures var after := WhiteListed(rules, listed, order);
            if forall n <- r.names :: n == "personality" || n == "socket" then r in after
            else r.(args := []) in after
  {
    hide UnrestrictAll, StripAll, AddAll;
    var rm := NamesWith(rules, true) * listed;
    var before := Strip(rules, rm) + AddAll(order);
    StripKeeps(rules, rm, r);
    assert r in before;
    var i :| 0 <= i < |before| && before[i] == r;
    UnrestrictAt(before);
    assert UnrestrictAll(before)[i] in UnrestrictAll(before);
  }

  lemma {:induction false} StripKeeps(rules: seq<Rule>, rm: set<string>, r: Rule)
    requires r in rules && !Blocks(r.action)
    ensures r in StripAll(rules, rm)
  {
    assert rules == [rules[0]] + rules[1..];
    if rules[0] != r {
      StripKeeps(rules[1..], rm, r);
    } else {
      assert StripRule(r, rm) == [r] && r in [r];
    }
  }

  lemma AllowedBefore(rules: seq<Rule>, name: string)
    ensures name in NamesWith(rules, false) <==> Allow in Actions(rules, name)
  {
    ActionsAreNames(rules, name, Allow);
  }

  lemma ArgsAfter(rules: seq<Rule>, listed: set<string>, order: seq<string>, r: Rule, name: string)
    requires r in WhiteListed(rules, listed, order) && name in r.names
    ensures KeepsArgs(name) || r.args == []
  {
    UnrestrictedRules(Strip(rules, NamesWith(rules, true) * listed) + AddAll(order), r);
  }

  // ----- a second application -----

  lemma {:induction false} UnrestrictTwice(rules: seq<Rule>)
    requires forall r <- rules :: r.args == [] || Restrictable(r)
    ensures UnrestrictAll(rules) == rules
  {
    hide Restrictable;
    UnrestrictAt(rules);
  }

  /** Rewriting a rewritten filter changes nothing, in either mode. */
  lemma RewriteIsIdempotent(rules: seq<Rule>, listed: set<string>, order: seq<string>, order': seq<string>)
    requires Enumerates(order, ToAdd(rules, listed))
    requires Enumerates(order', ToAdd(WhiteListed(rules, listed, order), listed))
    ensures WhiteListed(WhiteListed(rules, listed, order), listed, order') == WhiteListed(rules, listed, order)
    ensures BlackListed(BlackListed(rules, listed), listed) == BlackListed(rules, listed)
  {
    hide WhiteListed, BlackListed;
    WhiteListTwice(rules, listed, order, order');
    BlackListTwice(rules, listed);
  }

  lemma NothingEnumerated(order: seq<string>)
    requires Enumerates(order, {})
    ensures order == []
  {
    if order != [] {
      SomeMember(order);
    }
  }

  lemma SomeMember(order: seq<string>)
    requires order != []
    ensures exists n :: n in order
  {
    assert order[0] in order;
  }

  lemma WhiteListTwice(rules: seq<Rule>, listed: set<string>, order: seq<string>, order': seq<string>)
    requires Enumerates(order, ToAdd(rules, listed))
    requires Enumerates(order', ToAdd(WhiteListed(rules, listed, order), listed))
    ensures WhiteListed(WhiteListed(rules, listed, order), listed, order') == WhiteListed(rules, listed, order)
  {
    hide UnrestrictAll, StripAll, Actions, Restrictable;
    var after := WhiteListed(rules, listed, order);
    forall name | name in listed
      ensures name in NamesWith(after, false) && name !in NamesWith(after, true)
    {
      ListedNamesAreAllowed(rules, listed, order, name);
    }
    assert ToAdd(after, listed) == {};
    NothingEnumerated(order');
    assert NamesWith(after, true) * listed == {};
    forall r | r in after
      ensures r.args == [] || Restrictable(r)
    {
      UnrestrictedRules(Strip(rules, NamesWith(rules, true) * listed) + AddAll(order), r);
    }
    UnrestrictTwice(after);
    assert after + AddAll([]) == after;
  }

  lemma {:induction false} StrippedNames(rules: seq<Rule>, rm: set<string>)
    ensures NamesWith(StripAll(rules, rm), true) == NamesWith(rules, true) - rm
  {
    if rules != [] {
      StrippedNames(rules[1..], rm);
      NamesWithConcat([rules[0]], rules[1..]);
      NamesWithConcat(StripRule(rules[0], rm), StripAll(rules[1..], rm));
      assert rules == [rules[0]] + rules[1..];
      StrippedRuleNames(rules[0], rm);
    }
  }

  lemma NamesWithConcat(a: seq<Rule>, b: seq<Rule>)
    ensures NamesWith(a + b, true) == NamesWith(a, true) + NamesWith(b, true)
  {
  }

  lemma StrippedRuleNames(r: Rule, rm: set<string>)
    ensures NamesWith(StripRule(r, rm), true) == NamesWith([r], true) - rm
  {
    if Blocks(r.action) {
      assert forall n :: n in NamesWith([r], true) <==> n in r.names;
      if Kept(r.names, rm) == [] {
        assert forall n <- r.names :: n in Kept(r.names, rm) || n in rm;
      } else {
        assert StripRule(r, rm)[0].names == Kept(r.names, rm);
      }
    }
  }

  /**
   * With a default that allows, what stays blocked are exactly the blocked names that the runtime's own list of
   * allowed calls contains.
   */
  lemma BlockedAfterBlackListing(rules: seq<Rule>, listed: set<string>)
    ensures NamesWith(BlackListed(rules, listed), true) == NamesWith(rules, true) * listed
  {
    StrippedNames(rules, NamesWith(rules, true) - listed);
  }

  lemma BlackListTwice(rules: seq<Rule>, listed: set<string>)
    ensures BlackListed(BlackListed(rules, listed), listed) == BlackListed(rules, listed)
  {
    BlockedAfterBlackListing(rules, listed);
    assert NamesWith(BlackListed(rules, listed), true) - listed == {};
  }

  /**
   * For example, with mount on the runtime's list a filter that blocks mount and reboot ends up blocking mount only.
   */
  lemma ListedStaysBlocked(rules: seq<Rule>)
    requires rules == [Rule(["mount", "reboot"], Errno, 1, [])]
    ensures NamesWith(BlackListed(rules, {"mount"}), true) == {"mount"}
  {
    BlockedAfterBlackListing(rules, {"mount"});
    var names := rules[0].names;
    assert rules[0] in rules && names[0] in names && names[1] in names;
    assert forall n :: n in names ==> n == names[0] || n == names[1];
    assert NamesWith(rules, true) == {names[0], names[1]};
  }
}
