/**
 * The two passes that mount a container's configured mounts. Bind mounts are sent to the parent in batches; a
 * mount's destination is rewritten in place, to a path relative to the rootfs, when its turn comes. How a
 * destination resolves is an argument, with none for a mount that cannot be prepared or made; so is which of the
 * requests of a pass the parent serves.
 */
module BindMounts {
  import opened Wrappers

  datatype Mount = Mount(device: string, destination: string)

  /** The destination lies under a mount point that sysbox-fs manages. */
  predicate Overmount(destination: string) {
    "/proc/sys/" <= destination || "/proc/swaps/" <= destination || "/proc/uptime/" <= destination
  }

  /** The mount belongs to this pass. */
  predicate Selected(m: Mount, overmountsOnly: bool) {
    overmountsOnly == Overmount(m.destination)
  }

  predicate IsBind(m: Mount) {
    m.device == "bind"
  }

  /** A resolved destination is relative; the rootfs itself is ".". */
  predicate Relative(destination: string) {
    destination != "" && destination[0] != '/'
  }

  function Rooted(destination: string): string {
    if destination == "." then "/" else "/" + destination
  }

  type Resolution = seq<Option<string>>

  ghost predicate AllRelative(resolved: Resolution) {
    forall r <- resolved :: r.Some? ==> Relative(r.value)
  }

  /** The first `n` mounts of a pass that are bind mounts, or that are not, in order. */
  function Chosen(mounts: seq<Mount>, overmountsOnly: bool, binds: bool, n: nat): seq<nat>
    requires n <= |mounts|
  {
    if n == 0 then []
    else
      var m := mounts[n - 1];
      Chosen(mounts, overmountsOnly, binds, n - 1) +
      if IsBind(m) == binds && Selected(m, overmountsOnly) then [n - 1] else []
  }

  /** The mounts after those chosen have been given their resolved destinations. */
  ghost predicate Rewritten(was: seq<Mount>, now: seq<Mount>, resolved: Resolution, overmountsOnly: bool, binds: bool,
                            n: nat)
    requires |resolved| == |was| && n <= |was|
  {
    && |now| == |was|
    && forall k :: 0 <= k < |was| ==>
         if k < n && IsBind(was[k]) == binds && Selected(was[k], overmountsOnly)
         then resolved[k].Some? && now[k] == was[k].(destination := resolved[k].value)
         else now[k] == was[k]
  }

  // ----- batches -----

  /** The destination of `earlier`, resolved, is a prefix of the destination configured for `later`. */
  predicate Depends(was: seq<Mount>, resolved: Resolution, later: nat, earlier: nat) {
    && later < |was| && earlier < |resolved| && resolved[earlier].Some?
    && Rooted(resolved[earlier].value) <= was[later].destination
  }

  ghost predicate DependsOnAny(was: seq<Mount>, resolved: Resolution, later: nat, batch: seq<nat>) {
    exists i :: 0 <= i < |batch| && Depends(was, resolved, later, batch[i])
  }

  /** No mount of the batch depends on one before it. */
  ghost predicate Independent(was: seq<Mount>, resolved: Resolution, batch: seq<nat>) {
    forall i, j :: 0 <= i < j < |batch| ==> !Depends(was, resolved, batch[j], batch[i])
  }

  /** The batches are independent, none is empty, and each was closed because the next mount depends on it. */
  ghost predicate WellBatched(was: seq<Mount>, resolved: Resolution, batches: seq<seq<nat>>) {
    && (forall b <- batches :: b != [] && Independent(was, resolved, b))
    && (forall i :: 0 < i < |batches| && batches[i] != [] ==>
        DependsOnAny(was, resolved, batches[i][0], batches[i - 1]))
  }

  function Flat(batches: seq<seq<nat>>): seq<nat> {
    if batches == [] then [] else Flat(batches[..|batches| - 1]) + batches[|batches| - 1]
  }

  lemma FlatSnoc(batches: seq<seq<nat>>, b: seq<nat>)
    ensures Flat(batches + [b]) == Flat(batches) + b
  {
    assert (batches + [b])[..|batches|] == batches;
  }

  lemma WellBatchedSnoc(was: seq<Mount>, resolved: Resolution, batches: seq<seq<nat>>, b: seq<nat>)
    requires WellBatched(was, resolved, batches) && b != [] && Independent(was, resolved, b)
    requires batches != [] ==> DependsOnAny(was, resolved, b[0], batches[|batches| - 1])
    ensures WellBatched(was, resolved, batches + [b])
  {
    hide Independent, DependsOnAny;
    var all := batches + [b];
    assert forall x <- all :: x in batches || x == b;
    assert forall i :: 0 <= i < |batches| ==> all[i] == batches[i];
  }

  lemma IndependentSnoc(was: seq<Mount>, resolved: Resolution, b: seq<nat>, n: nat)
    requires Independent(was, resolved, b) && (b == [] || !DependsOnAny(was, resolved, n, b))
    ensures Independent(was, resolved, b + [n])
  {
    hide Depends;
    forall i, j | 0 <= i < j < |b + [n]|
      ensures !Depends(was, resolved, (b + [n])[j], (b + [n])[i])
    {
      if j == |b| {
        assert !Depends(was, resolved, n, b[i]);
      }
    }
  }

  /** In strings: a mount never shares a batch with an earlier one whose resolved place its destination starts with. */
  lemma NestedNeverShareABatch(was: seq<Mount>, resolved: Resolution, batches: seq<seq<nat>>, b: seq<nat>, i: nat,
                               j: nat, d: string, suffix: string)
    requires WellBatched(was, resolved, batches) && b in batches && i < j < |b|
    requires b[i] < |resolved| && b[j] < |was| && resolved[b[i]] == Some(d)
    ensures d != "." ==> was[b[j]].destination != "/" + d + suffix
    ensures d == "." ==> was[b[j]].destination != "/" + suffix
  {
    assert !Depends(was, resolved, b[j], b[i]);
    assert ("/" + d + suffix)[..|"/" + d|] == "/" + d && ("/" + suffix)[..1] == "/";
  }

  /** And a batch is closed only for such a mount. */
  lemma BatchEndsBeforeNested(was: seq<Mount>, resolved: Resolution, batches: seq<seq<nat>>, i: nat)
    returns (earlier: nat, d: string, suffix: string)
    requires WellBatched(was, resolved, batches) && 0 < i < |batches|
    ensures batches[i] != [] && batches[i][0] < |was|
    ensures earlier in batches[i - 1] && earlier < |resolved| && resolved[earlier] == Some(d)
    ensures was[batches[i][0]].destination == if d == "." then "/" + suffix else "/" + d + suffix
  {
    assert batches[i] in batches;
    var later := batches[i][0];
    var k :| 0 <= k < |batches[i - 1]| && Depends(was, resolved, later, batches[i - 1][k]);
    earlier := batches[i - 1][k];
    d := resolved[earlier].value;
    suffix := was[later].destination[|Rooted(d)|..];
  }

  method FindDependency(was: seq<Mount>, resolved: Resolution, later: nat, batch: seq<nat>) returns (found: bool)
    ensures found <==> DependsOnAny(was, resolved, later, batch)
  {
    found := false;
    for i := 0 to |batch|
      invariant found <==> exists j :: 0 <= j < i && Depends(was, resolved, later, batch[j])
    {
      if Depends(was, resolved, later, batch[i]) {
        found := true;
      }
    }
  }

  class Rootfs {
    var mounts: seq<Mount>
    /** The mounts made, in order. */
    var performed: seq<nat>
    /** The batches sent to the parent. */
    var batches: seq<seq<nat>>

    constructor (mounts: seq<Mount>)
      ensures this.mounts == mounts && performed == [] && batches == []
    {
      this.mounts, performed, batches := mounts, [], [];
    }

    method Send(batch: seq<nat>)
      modifies this`performed, this`batches
      ensures batches == old(batches) + [batch] && performed == old(performed) + batch
    {
      batches := batches + [batch];
      performed := performed + batch;
    }

    /**
     * Sends the bind mounts of a pass. Together the batches hold exactly those mounts, in order; no mount shares a
     * batch with an earlier one that it depends on; and a batch is closed only for that reason. When it fails, a
     * mount cannot be prepared or the parent has not served the next batch.
     */
    method DoBindMounts(resolved: Resolution, overmountsOnly: bool, serves: nat -> bool)
      returns (ok: bool, n: nat, ghost sent: seq<seq<nat>>)
      requires |resolved| == |mounts|
      modifies this
      ensures |mounts| == |old(mounts)|
      ensures batches == old(batches) + sent && performed == old(performed) + Flat(sent)
      ensures WellBatched(old(mounts), resolved, sent)
      ensures ok ==> Flat(sent) == Chosen(old(mounts), overmountsOnly, true, |old(mounts)|)
      ensures ok ==> Rewritten(old(mounts), mounts, resolved, overmountsOnly, true, |old(mounts)|)
      ensures n == |sent| && forall k :: 0 <= k < n ==> serves(k)
      ensures if ok then AllResolve(old(mounts), resolved, overmountsOnly, true)
              else !AllResolve(old(mounts), resolved, overmountsOnly, true) || !serves(n)
    {
      hide *;
      var was := mounts;
      var pending: seq<nat> := [];
      sent := [];
      n := 0;
      BatchingStart(was, resolved, overmountsOnly);
      RewrittenStart(was, resolved, overmountsOnly, true);
      for i := 0 to |was|
        invariant |mounts| == |was| && Rewritten(was, mounts, resolved, overmountsOnly, true, i)
        invariant batches == old(batches) + sent && performed == old(performed) + Flat(sent)
        invariant Batching(was, resolved, overmountsOnly, sent, pending, i)
        invariant n == |sent| && forall k :: 0 <= k < n ==> serves(k)
      {
        RewrittenStep(was, mounts, resolved, overmountsOnly, true, i);
        var m := mounts[i];
        if !IsBind(m) || !Selected(m, overmountsOnly) {
          BatchingSkip(was, resolved, overmountsOnly, sent, pending, i);
          continue;
        }
        var depends := FindDependency(was, resolved, i, pending);
        if depends {
          BatchingSent(was, resolved, overmountsOnly, sent, pending, i);
          if !serves(n) {
            return false, n, sent;
          }
          BatchingClose(was, resolved, overmountsOnly, sent, pending, i);
          Send(pending);
          sent, n := sent + [pending], n + 1;
          if resolved[i].None? {
            SomeFails(was, resolved, overmountsOnly, true, i);
            return false, n, sent;
          }
          mounts := mounts[i := m.(destination := resolved[i].value)];
          pending := [i];
        } else {
          BatchingSent(was, resolved, overmountsOnly, sent, pending, i);
          if resolved[i].None? {
            SomeFails(was, resolved, overmountsOnly, true, i);
            return false, n, sent;
          }
          BatchingTake(was, resolved, overmountsOnly, sent, pending, i);
          mounts := mounts[i := m.(destination := resolved[i].value)];
          pending := pending + [i];
        }
      }
      BatchingSent(was, resolved, overmountsOnly, sent, pending, |was|);
      BatchingEnd(was, resolved, overmountsOnly, sent, pending);
      RewrittenEnd(was, mounts, resolved, overmountsOnly, true);
      if |pending| > 0 {
        if !serves(n) {
          return false, n, sent;
        }
        Send(pending);
        sent, n := sent + [pending], n + 1;
      }
      return true, n, sent;
    }

    /**
     * One pass: first the mounts that are no bind mounts, then the bind mounts, then the request to change the
     * owner of a proc mount, if one was made and IDs are mapped.
     */
    method DoMounts(resolved: Resolution, overmountsOnly: bool, mapped: bool, serves: nat -> bool) returns (ok: bool)
      requires |resolved| == |mounts|
      modifies this
      ensures |mounts| == |old(mounts)|
      ensures ok ==> forall binds :: AllResolve(old(mounts), resolved, overmountsOnly, binds)
      ensures !ok ==> (exists binds :: !AllResolve(old(mounts), resolved, overmountsOnly, binds)) ||
                      (exists k: nat :: !serves(k))
      ensures ok ==> PassDone(old(mounts), mounts, resolved, overmountsOnly)
      ensures ok ==> performed == old(performed) + PassOrder(old(mounts), overmountsOnly)
    {
      hide *;
      var was := mounts;
      var chownProc := false;
      RewrittenStart(was, resolved, overmountsOnly, false);
      NoneChosen(was, overmountsOnly);
      for i := 0 to |was|
        invariant |mounts| == |was| && Rewritten(was, mounts, resolved, overmountsOnly, false, i)
        invariant performed == old(performed) + Chosen(was, overmountsOnly, false, i)
      {
        RewrittenStep(was, mounts, resolved, overmountsOnly, false, i);
        ChosenStep(was, overmountsOnly, false, i);
        var m := mounts[i];
        if !Selected(m, overmountsOnly) {
          continue;
        }
        if !IsBind(m) {
          if resolved[i].None? {
            SomeFails(was, resolved, overmountsOnly, false, i);
            return false;
          }
          mounts := mounts[i := m.(destination := resolved[i].value)];
          performed := performed + [i];
          if m.device == "proc" {
            chownProc := true;
          }
        }
      }
      RewrittenEnd(was, mounts, resolved, overmountsOnly, false);
      var mid := mounts;
      BindsUntouched(was, mid, resolved, overmountsOnly);
      var n;
      ghost var sent;
      ok, n, sent := DoBindMounts(resolved, overmountsOnly, serves);
      if ok {
        BothParts(was, mid, mounts, resolved, overmountsOnly);
        if chownProc && mapped && !serves(n) {
          return false;
        }
      }
    }

    /**
     * Both passes: when they succeed, every configured mount has been made exactly once, although the first pass
     * rewrites the destinations that the second one looks at; what lies under the managed mount points comes after
     * everything else; and every destination is the resolved one.
     */
    method SetUpMounts(first: Resolution, second: Resolution, mapped: bool, serves: nat -> bool, later: nat -> bool)
      returns (ok: bool)
      requires |first| == |mounts| && |second| == |mounts| && AllRelative(first) && performed == []
      modifies this
      ensures ok ==> EachOnce(performed, |old(mounts)|) && ManagedLast(old(mounts), performed)
      ensures ok ==> |mounts| == |old(mounts)|
      ensures ok ==> forall k :: 0 <= k < |mounts| ==>
                       var r := if Overmount(old(mounts)[k].destination) then second[k] else first[k];
                       r.Some? && mounts[k] == old(mounts)[k].(destination := r.value)
    {
      hide *;
      var was := mounts;
      ok := DoMounts(first, false, mapped, serves);
      if !ok {
        return false;
      }
      var mid := mounts;
      assert performed == PassOrder(was, false);
      ok := DoMounts(second, true, mapped, later);
      if ok {
        TwoPasses(was, mid, mounts, first, second);
      }
    }
  }

  // ----- the steps of the loop -----

  /** Every mount of the pass can be resolved. */
  ghost predicate AllResolve(was: seq<Mount>, resolved: Resolution, overmountsOnly: bool, binds: bool) {
    |resolved| == |was| &&
    forall k :: 0 <= k < |was| && IsBind(was[k]) == binds && Selected(was[k], overmountsOnly) ==> resolved[k].Some?
  }

  ghost predicate Batching(was: seq<Mount>, resolved: Resolution, overmountsOnly: bool, sent: seq<seq<nat>>,
                           pending: seq<nat>, i: nat)
    requires i <= |was|
  {
    && WellBatched(was, resolved, sent) && Independent(was, resolved, pending)
    && Flat(sent) + pending == Chosen(was, overmountsOnly, true, i)
    && (sent != [] ==> pending != [] && DependsOnAny(was, resolved, pending[0], sent[|sent| - 1]))
  }

  lemma BatchingStart(was: seq<Mount>, resolved: Resolution, overmountsOnly: bool)
    ensures Batching(was, resolved, overmountsOnly, [], [], 0) && Flat([]) == []
  {
  }

  lemma BatchingSkip(was: seq<Mount>, resolved: Resolution, overmountsOnly: bool, sent: seq<seq<nat>>,
                     pending: seq<nat>, i: nat)
    requires i < |was| && Batching(was, resolved, overmountsOnly, sent, pending, i)
    requires !IsBind(was[i]) || !Selected(was[i], overmountsOnly)
    ensures Batching(was, resolved, overmountsOnly, sent, pending, i + 1)
  {
    hide WellBatched, Independent, Flat, DependsOnAny;
    assert Chosen(was, overmountsOnly, true, i) + [] == Chosen(was, overmountsOnly, true, i);
  }

  lemma BatchingSent(was: seq<Mount>, resolved: Resolution, overmountsOnly: bool, sent: seq<seq<nat>>,
                     pending: seq<nat>, i: nat)
    requires i <= |was| && Batching(was, resolved, overmountsOnly, sent, pending, i)
    ensures WellBatched(was, resolved, sent)
  {
  }

  lemma BatchingTake(was: seq<Mount>, resolved: Resolution, overmountsOnly: bool, sent: seq<seq<nat>>,
                     pending: seq<nat>, i: nat)
    requires i < |was| && Batching(was, resolved, overmountsOnly, sent, pending, i)
    requires IsBind(was[i]) && Selected(was[i], overmountsOnly) && !DependsOnAny(was, resolved, i, pending)
    ensures Batching(was, resolved, overmountsOnly, sent, pending + [i], i + 1)
  {
    hide WellBatched, Independent, Flat, DependsOnAny, Selected;
    IndependentSnoc(was, resolved, pending, i);
    assert Flat(sent) + (pending + [i]) == Flat(sent) + pending + [i];
  }

  lemma BatchingClose(was: seq<Mount>, resolved: Resolution, overmountsOnly: bool, sent: seq<seq<nat>>,
                      pending: seq<nat>, i: nat)
    requires i < |was| && Batching(was, resolved, overmountsOnly, sent, pending, i)
    requires IsBind(was[i]) && Selected(was[i], overmountsOnly) && DependsOnAny(was, resolved, i, pending)
    ensures Flat(sent + [pending]) == Flat(sent) + pending
    ensures WellBatched(was, resolved, sent + [pending])
    ensures Batching(was, resolved, overmountsOnly, sent + [pending], [i], i + 1)
  {
    hide WellBatched, Independent, Flat, DependsOnAny, Selected;
    NotEmpty(was, resolved, i, pending);
    FlatSnoc(sent, pending);
    WellBatchedSnoc(was, resolved, sent, pending);
    NoBatches(was, resolved);
    IndependentSnoc(was, resolved, [], i);
    assert [] + [i] == [i];
  }

  lemma BatchingEnd(was: seq<Mount>, resolved: Resolution, overmountsOnly: bool, sent: seq<seq<nat>>, pending: seq<nat>)
    requires Batching(was, resolved, overmountsOnly, sent, pending, |was|)
    ensures var all := if |pending| > 0 then sent + [pending] else sent;
            && Flat(all) == Chosen(was, overmountsOnly, true, |was|)
            && WellBatched(was, resolved, all)
    ensures Flat(sent + [pending]) == Flat(sent) + pending
  {
    hide WellBatched, Independent, Flat, DependsOnAny, Chosen;
    FlatSnoc(sent, pending);
    if |pending| > 0 {
      WellBatchedSnoc(was, resolved, sent, pending);
    } else {
      assert Flat(sent) + pending == Flat(sent);
    }
  }

  lemma RewrittenStart(was: seq<Mount>, resolved: Resolution, overmountsOnly: bool, binds: bool)
    requires |resolved| == |was|
    ensures Rewritten(was, was, resolved, overmountsOnly, binds, 0)
  {
  }

  lemma RewrittenStep(was: seq<Mount>, now: seq<Mount>, resolved: Resolution, overmountsOnly: bool, binds: bool, i: nat)
    requires |resolved| == |was| && i < |was| && Rewritten(was, now, resolved, overmountsOnly, binds, i)
    ensures |now| == |was| && now[i] == was[i]
    ensures if IsBind(was[i]) == binds && Selected(was[i], overmountsOnly) then
              resolved[i].Some? ==>
                Rewritten(was, now[i := was[i].(destination := resolved[i].value)], resolved, overmountsOnly, binds,
                          i + 1)
            else Rewritten(was, now, resolved, overmountsOnly, binds, i + 1)
  {
    hide Selected;
  }

  lemma RewrittenEnd(was: seq<Mount>, now: seq<Mount>, resolved: Resolution, overmountsOnly: bool, binds: bool)
    requires |resolved| == |was| && Rewritten(was, now, resolved, overmountsOnly, binds, |was|)
    ensures AllResolve(was, resolved, overmountsOnly, binds)
  {
    hide Selected;
  }

  lemma NoBatches(was: seq<Mount>, resolved: Resolution)
    ensures WellBatched(was, resolved, []) && Independent(was, resolved, [])
  {
  }

  lemma NotEmpty(was: seq<Mount>, resolved: Resolution, later: nat, batch: seq<nat>)
    requires DependsOnAny(was, resolved, later, batch)
    ensures batch != []
  {
  }

  // ----- the batches are determined -----

  lemma {:induction false} FlatFront(batches: seq<seq<nat>>)
    requires batches != []
    ensures Flat(batches) == batches[0] + Flat(batches[1..])
  {
    var n := |batches| - 1;
    if n == 0 {
      assert batches[..0] == [] && batches[1..] == [];
      assert Flat([]) + batches[0] == batches[0] + Flat([]);
    } else {
      FlatFront(batches[..n]);
      assert batches[..n][1..] == batches[1..][..n - 1];
      assert batches[0] + (Flat(batches[1..][..n - 1]) + batches[n]) ==
             batches[0] + Flat(batches[1..][..n - 1]) + batches[n];
    }
  }

  lemma WellBatchedRest(was: seq<Mount>, resolved: Resolution, batches: seq<seq<nat>>)
    requires WellBatched(was, resolved, batches) && batches != []
    ensures WellBatched(was, resolved, batches[1..])
  {
    hide Independent, DependsOnAny;
    var rest := batches[1..];
    forall i | 0 < i < |rest| && rest[i] != []
      ensures DependsOnAny(was, resolved, rest[i][0], rest[i - 1])
    {
      assert rest[i] == batches[i + 1] && rest[i - 1] == batches[i];
    }
    assert forall b <- rest :: b in batches;
  }

  /** The mount after the first batch depends on a mount of it. */
  lemma FirstCut(was: seq<Mount>, resolved: Resolution, batches: seq<seq<nat>>)
    requires WellBatched(was, resolved, batches) && batches != []
    ensures var f, n := Flat(batches), |batches[0]|;
            n < |f| ==> exists i :: 0 <= i < n && Depends(was, resolved, f[n], f[i])
  {
    hide Depends, Independent;
    FlatFront(batches);
    var f, n := Flat(batches), |batches[0]|;
    if n < |f| {
      FlatFront(batches[1..]);
      assert batches[1] in batches;
      assert f[n] == batches[1][0];
      var i :| 0 <= i < n && Depends(was, resolved, batches[1][0], batches[0][i]);
      assert f[i] == batches[0][i];
    }
  }

  lemma FirstFree(was: seq<Mount>, resolved: Resolution, batches: seq<seq<nat>>)
    requires WellBatched(was, resolved, batches) && batches != []
    ensures var f, n := Flat(batches), |batches[0]|;
            n <= |f| && forall i, j :: 0 <= i < j < n ==> !Depends(was, resolved, f[j], f[i])
  {
    hide Depends, DependsOnAny;
    FlatFront(batches);
    assert batches[0] in batches;
    assert Flat(batches)[..|batches[0]|] == batches[0];
  }

  /** A first batch cannot be shorter than in another good batching of the same mounts. */
  lemma FirstNotShorter(was: seq<Mount>, resolved: Resolution, a: seq<seq<nat>>, b: seq<seq<nat>>)
    requires WellBatched(was, resolved, a) && WellBatched(was, resolved, b) && Flat(a) == Flat(b) && a != [] && b != []
    ensures |a[0]| >= |b[0]|
  {
    hide Depends, WellBatched, Flat;
    FirstCut(was, resolved, a);
    FirstFree(was, resolved, b);
  }

  /** Nothing about the batches is left open: there is one good batching of a list of mounts. */
  lemma {:induction false} BatchesAreDetermined(was: seq<Mount>, resolved: Resolution, a: seq<seq<nat>>,
                                                b: seq<seq<nat>>)
    requires WellBatched(was, resolved, a) && WellBatched(was, resolved, b) && Flat(a) == Flat(b)
    ensures a == b
    decreases |a|
  {
    hide Flat, Independent, DependsOnAny;
    if a == [] || b == [] {
      EmptyFlat(was, resolved, a);
      EmptyFlat(was, resolved, b);
    } else {
      FirstNotShorter(was, resolved, a, b);
      FirstNotShorter(was, resolved, b, a);
      FlatFront(a);
      FlatFront(b);
      assert a[0] == Flat(a)[..|a[0]|] && b[0] == Flat(b)[..|b[0]|];
      assert Flat(a[1..]) == Flat(a)[|a[0]|..] && Flat(b[1..]) == Flat(b)[|b[0]|..];
      WellBatchedRest(was, resolved, a);
      WellBatchedRest(was, resolved, b);
      BatchesAreDetermined(was, resolved, a[1..], b[1..]);
      assert a == [a[0]] + a[1..] && b == [b[0]] + b[1..];
    }
  }

  lemma EmptyFlat(was: seq<Mount>, resolved: Resolution, batches: seq<seq<nat>>)
    requires WellBatched(was, resolved, batches)
    ensures Flat(batches) == [] <==> batches == []
  {
    hide Independent, DependsOnAny;
    if batches != [] {
      FlatFront(batches);
      assert batches[0] in batches;
    }
  }

  // ----- the two passes -----

  /** The mounts of a pass have their resolved destinations, and no other mount has changed. */
  ghost predicate PassDone(was: seq<Mount>, now: seq<Mount>, resolved: Resolution, overmountsOnly: bool) {
    && |now| == |was| == |resolved|
    && forall k :: 0 <= k < |was| ==>
         if Selected(was[k], overmountsOnly)
         then resolved[k].Some? && now[k] == was[k].(destination := resolved[k].value)
         else now[k] == was[k]
  }

  function PassOrder(mounts: seq<Mount>, overmountsOnly: bool): seq<nat> {
    Chosen(mounts, overmountsOnly, false, |mounts|) + Chosen(mounts, overmountsOnly, true, |mounts|)
  }

  lemma NoneChosen(was: seq<Mount>, overmountsOnly: bool)
    ensures Chosen(was, overmountsOnly, false, 0) == []
  {
  }

  lemma ChosenStep(was: seq<Mount>, overmountsOnly: bool, binds: bool, i: nat)
    requires i < |was|
    ensures Chosen(was, overmountsOnly, binds, i + 1) ==
            Chosen(was, overmountsOnly, binds, i) +
            if IsBind(was[i]) == binds && Selected(was[i], overmountsOnly) then [i] else []
  {
  }

  lemma SomeFails(was: seq<Mount>, resolved: Resolution, overmountsOnly: bool, binds: bool, i: nat)
    requires i < |was| && |resolved| == |was|
    requires IsBind(was[i]) == binds && Selected(was[i], overmountsOnly) && resolved[i].None?
    ensures !AllResolve(was, resolved, overmountsOnly, binds)
  {
  }

  lemma {:induction false} SameChosen(a: seq<Mount>, b: seq<Mount>, overmountsOnly: bool, binds: bool, n: nat)
    requires |a| == |b| && n <= |a|
    requires forall k :: 0 <= k < |a| ==>
             (IsBind(a[k]) == binds && Selected(a[k], overmountsOnly) <==>
              IsBind(b[k]) == binds && Selected(b[k], overmountsOnly))
    ensures Chosen(a, overmountsOnly, binds, n) == Chosen(b, overmountsOnly, binds, n)
  {
    hide Selected;
    if n > 0 {
      SameChosen(a, b, overmountsOnly, binds, n - 1);
    }
  }

  /** Rewriting the other mounts leaves the bind mounts of the pass as they were. */
  lemma BindsUntouched(was: seq<Mount>, mid: seq<Mount>, resolved: Resolution, overmountsOnly: bool)
    requires |resolved| == |was| && Rewritten(was, mid, resolved, overmountsOnly, false, |was|)
    ensures |mid| == |was|
    ensures AllResolve(mid, resolved, overmountsOnly, true) <==> AllResolve(was, resolved, overmountsOnly, true)
    ensures Chosen(mid, overmountsOnly, true, |mid|) == Chosen(was, overmountsOnly, true, |was|)
  {
    hide Selected;
    assert forall k :: 0 <= k < |was| ==> mid[k].device == was[k].device && (IsBind(was[k]) ==> mid[k] == was[k]);
    SameChosen(mid, was, overmountsOnly, true, |was|);
  }

  lemma BothParts(was: seq<Mount>, mid: seq<Mount>, now: seq<Mount>, resolved: Resolution, overmountsOnly: bool)
    requires |resolved| == |was| && Rewritten(was, mid, resolved, overmountsOnly, false, |was|)
    requires |mid| == |was| && Rewritten(mid, now, resolved, overmountsOnly, true, |mid|)
    ensures PassDone(was, now, resolved, overmountsOnly)
    ensures PassOrder(was, overmountsOnly) ==
            Chosen(was, overmountsOnly, false, |was|) + Chosen(mid, overmountsOnly, true, |mid|)
  {
    hide Selected;
    BindsUntouched(was, mid, resolved, overmountsOnly);
    forall k | 0 <= k < |was|
      ensures if Selected(was[k], overmountsOnly)
              then resolved[k].Some? && now[k] == was[k].(destination := resolved[k].value)
              else now[k] == was[k]
    {
      assert mid[k].device == was[k].device;
      if IsBind(was[k]) {
        assert mid[k] == was[k];
      } else {
        assert now[k] == mid[k];
      }
    }
  }

  ghost predicate NoRepeats(s: seq<nat>) {
    forall i, j :: 0 <= i < j < |s| ==> s[i] != s[j]
  }

  /** The sequence holds each number below `n` exactly once, and nothing else. */
  ghost predicate EachOnce(s: seq<nat>, n: nat) {
    NoRepeats(s) && forall k: nat :: k in s <==> k < n
  }

  lemma {:induction false} ChosenAre(mounts: seq<Mount>, overmountsOnly: bool, binds: bool, n: nat)
    requires n <= |mounts|
    ensures forall k: nat :: k in Chosen(mounts, overmountsOnly, binds, n) <==>
            k < n && IsBind(mounts[k]) == binds && Selected(mounts[k], overmountsOnly)
    ensures NoRepeats(Chosen(mounts, overmountsOnly, binds, n))
  {
    hide Selected;
    if n > 0 {
      ChosenAre(mounts, overmountsOnly, binds, n - 1);
    }
  }

  lemma NoRepeatsConcat(a: seq<nat>, b: seq<nat>)
    requires NoRepeats(a) && NoRepeats(b) && forall k: nat :: !(k in a && k in b)
    ensures NoRepeats(a + b)
  {
    forall i, j | 0 <= i < j < |a + b|
      ensures (a + b)[i] != (a + b)[j]
    {
      if i < |a| <= j {
        assert a[i] in a && b[j - |a|] in b;
      }
    }
  }

  lemma PassOrderAre(mounts: seq<Mount>, overmountsOnly: bool)
    ensures forall k: nat :: k in PassOrder(mounts, overmountsOnly) <==>
            k < |mounts| && Selected(mounts[k], overmountsOnly)
    ensures NoRepeats(PassOrder(mounts, overmountsOnly))
  {
    hide Selected, Chosen, NoRepeats;
    ChosenAre(mounts, overmountsOnly, false, |mounts|);
    ChosenAre(mounts, overmountsOnly, true, |mounts|);
    NoRepeatsConcat(Chosen(mounts, overmountsOnly, false, |mounts|), Chosen(mounts, overmountsOnly, true, |mounts|));
  }

  /** A relative destination is under no absolute mount point. */
  lemma RelativeIsNoOvermount(destination: string)
    requires Relative(destination)
    ensures !Overmount(destination)
  {
  }

  /** The second pass selects exactly what the first one skipped. */
  lemma SecondSelects(was: seq<Mount>, mid: seq<Mount>, first: Resolution, k: nat)
    requires PassDone(was, mid, first, false) && AllRelative(first) && k < |was|
    ensures Selected(mid[k], true) <==> !Selected(was[k], false)
    ensures Selected(mid[k], true) ==> mid[k] == was[k]
  {
    if Selected(was[k], false) {
      assert first[k] in first;
      RelativeIsNoOvermount(first[k].value);
    }
  }

  lemma TwoPasses(was: seq<Mount>, mid: seq<Mount>, now: seq<Mount>, first: Resolution, second: Resolution)
    requires PassDone(was, mid, first, false) && PassDone(mid, now, second, true) && AllRelative(first)
    ensures EachOnce(PassOrder(was, false) + PassOrder(mid, true), |was|)
    ensures ManagedLast(was, PassOrder(was, false) + PassOrder(mid, true))
    ensures |now| == |was| == |first| == |second|
    ensures forall k :: 0 <= k < |now| ==>
              var r := if Overmount(was[k].destination) then second[k] else first[k];
              r.Some? && now[k] == was[k].(destination := r.value)
  {
    hide NoRepeats, PassOrder, Overmount;
    forall k: nat | k < |was|
      ensures Selected(mid[k], true) <==> !Selected(was[k], false)
      ensures Selected(mid[k], true) ==> mid[k] == was[k]
    {
      SecondSelects(was, mid, first, k);
    }
    PassOrderAre(was, false);
    PassOrderAre(mid, true);
    NoRepeatsConcat(PassOrder(was, false), PassOrder(mid, true));
    PassesInOrder(was, PassOrder(was, false), PassOrder(mid, true));
  }

  /** Once a mount under one of the three managed places has been made, only such mounts follow. */
  ghost predicate ManagedLast(was: seq<Mount>, order: seq<nat>) {
    && (forall i :: 0 <= i < |order| ==> order[i] < |was|)
    && forall i, j :: 0 <= i < j < |order| && UnderManaged(was[order[i]].destination) ==>
                        UnderManaged(was[order[j]].destination)
  }

  /** The first characters name one of the places, and something below it. */
  predicate UnderManaged(d: string) {
    || (|d| >= 10 && d[..10] == "/proc/sys/")
    || (|d| >= 12 && d[..12] == "/proc/swaps/")
    || (|d| >= 13 && d[..13] == "/proc/uptime/")
  }

  lemma ManagedIsOvermount(d: string)
    ensures Overmount(d) <==> UnderManaged(d)
  {
  }

  lemma PassesInOrder(was: seq<Mount>, a: seq<nat>, b: seq<nat>)
    requires forall k <- a :: k < |was| && !Overmount(was[k].destination)
    requires forall k <- b :: k < |was| && Overmount(was[k].destination)
    ensures ManagedLast(was, a + b)
  {
    hide Overmount, UnderManaged;
    var order := a + b;
    forall i | 0 <= i < |order|
      ensures order[i] < |was| && (UnderManaged(was[order[i]].destination) <==> i >= |a|)
    {
      if i < |a| {
        assert order[i] in a;
      } else {
        assert order[i] == b[i - |a|] && order[i] in b;
      }
      ManagedIsOvermount(was[order[i]].destination);
    }
  }
}
