/** How a start-up ends when init is killed: the exact moments that lead to a panic or to a reported success. */
module SyncOutcomes {
  import opened Wrappers
  import opened Pipes
  import opened SyncProtocol

  // ----- prefixes of a run -----

  lemma {:induction false} ExecuteSnoc(cfg: Setup, s: State, acts: seq<Action>, act: Action)
    ensures Execute(cfg, s, acts + [act]) ==
            if Execute(cfg, s, acts).None? then None else Next(cfg, Execute(cfg, s, acts).value, act)
    decreases |acts|
  {
    hide Next;
    if acts == [] {
      assert (acts + [act])[1..] == [];
    } else {
      assert (acts + [act])[1..] == acts[1..] + [act];
      if Next(cfg, s, acts[0]).Some? {
        ExecuteSnoc(cfg, Next(cfg, s, acts[0]).value, acts[1..], act);
      }
    }
  }

  /** The state before the last action. */
  lemma LastAction(cfg: Setup, acts: seq<Action>, s: State) returns (r: State)
    requires acts != [] && Execute(cfg, Initial(cfg), acts) == Some(s)
    ensures Execute(cfg, Initial(cfg), acts[..|acts| - 1]) == Some(r)
    ensures Next(cfg, r, acts[|acts| - 1]) == Some(s)
    ensures Inv(cfg, r)
  {
    hide Next, Inv, Execute;
    var n := |acts| - 1;
    assert acts == acts[..n] + [acts[n]];
    ExecuteSnoc(cfg, Initial(cfg), acts[..n], acts[n]);
    r := Execute(cfg, Initial(cfg), acts[..n]).value;
    InitialInv(cfg);
    ExecuteKeeps(cfg, Initial(cfg), acts[..n]);
  }

  /** Action `i` of the run kills init, and the run is in state `s` at that moment. */
  ghost predicate KillAt(cfg: Setup, acts: seq<Action>, i: nat, s: State) {
    i < |acts| && acts[i] == ChildKilled && Execute(cfg, Initial(cfg), acts[..i]) == Some(s)
  }

  /** A kill before the last action is a kill of the shorter run. */
  lemma KillInPrefix(cfg: Setup, acts: seq<Action>, i: nat, s: State)
    requires acts != [] && i < |acts| - 1
    ensures KillAt(cfg, acts, i, s) <==> KillAt(cfg, acts[..|acts| - 1], i, s)
  {
    assert acts[..|acts| - 1][..i] == acts[..i];
  }

  /** Init is killed at most once, and stays so. */
  lemma {:induction false} KilledStays(cfg: Setup, acts: seq<Action>, s: State)
    requires Execute(cfg, Initial(cfg), acts) == Some(s) && ChildKilled in acts
    ensures s.killed
    decreases |acts|
  {
    hide Execute, Inv, ParentStep, ParentReads, ChildStep, ChildReads, HandlerFailure;
    var n := |acts| - 1;
    var r := LastAction(cfg, acts, s);
    if acts[n] != ChildKilled {
      assert acts == acts[..n] + [acts[n]];
      KilledStays(cfg, acts[..n], r);
      NextLeavesLess(cfg, r, acts[n]);
    }
  }

  // ----- the panic -----

  /** The moment between an error and its text, with the parent in its loop or already reading the text. */
  predicate MidReport(s: State) {
    s.c == Failing2 && (s.p == Loop || s.p == ReadError)
  }

  predicate Doomed(s: State) {
    s.killed && s.c == Failing2 && (s.p == Loop || s.p == ReadError || s.p == Panicked)
  }

  lemma KillDooms(cfg: Setup, s: State)
    requires Inv(cfg, s) && Next(cfg, s, ChildKilled).Some?
    ensures Doomed(Next(cfg, s, ChildKilled).value) <==> MidReport(s)
  {
    hide Inv, ParentStep, ParentReads, ChildStep, ChildReads, HandlerFailure;
    ParentStays(cfg, s);
  }

  /** A handler whose init is killed ends in an error, or goes on to reply. */
  lemma ServingGoes(cfg: Setup, s: State)
    requires s.killed && (s.p.Handling? || s.p.Acting? || s.p.Replying?) && ParentStep(cfg, s).Some?
    ensures ParentStep(cfg, s).value.p == Exiting(true) || ParentStep(cfg, s).value.p == Replying(s.p.req)
  {
    hide Effects, Refuses, TwoPhase;
    var req := s.p.req;
    if s.p.Acting? || (s.p.Handling? && !TwoPhase(req)) {
      if Refuses(cfg, s, req) {
        assert DoEffects(cfg, s, req).p == Exiting(true);
      } else {
        assert DoEffects(cfg, s, req).p == Replying(req);
      }
    } else {
      assert ParentStep(cfg, s) == Some(s.(p := Exiting(true)));
    }
  }

  /** Where the parent goes from the other places, once init is killed. */
  lemma LeavingGoes(cfg: Setup, s: State)
    requires Inv(cfg, s) && s.killed && ParentStep(cfg, s).Some?
    requires s.p == Loop || s.p.AwaitPayload? || s.p == ReadError || s.p.Exiting? || s.p == Waiting
    ensures s.p == Loop ==> s.up == Empty && s.buf == Empty
    ensures var s' := ParentStep(cfg, s).value;
            && s'.c == s.c && s'.killed && s'.sentRun == s.sentRun
            && s'.p == (match s.p
                        case Loop => Exiting(s.down.Pending?)
                        case ReadError => Panicked
                        case Exiting(failed) =>
                          if !s.sentRun then Returned(false) else if failed then Waiting else Returned(true)
                        case Waiting => Returned(false)
                        case _ => Exiting(true))
  {
    hide Inv;
    match s.p
    case ReadError => PanicKeeps(cfg, s);
    case Exiting(_) =>
      if s.sentRun {
        RunImpliesResume(cfg, s);
      }
    case _ =>
  }

  lemma ParentStepDooms(cfg: Setup, s: State)
    requires Inv(cfg, s) && s.killed && ParentStep(cfg, s).Some?
    ensures Doomed(ParentStep(cfg, s).value) <==> Doomed(s)
  {
    hide ParentStep, Inv;
    ParentActs(cfg, s, ParentStep(cfg, s).value);
    if s.p.Handling? || s.p.Acting? || s.p.Replying? {
      ServingGoes(cfg, s);
    } else {
      LeavingGoes(cfg, s);
      if s.c == Failing2 {
        ReportPending(cfg, s);
      }
    }
  }

  /** While a killed init's error waits, the loop does not see the end of the pipe. */
  lemma ReportPending(cfg: Setup, s: State)
    requires Inv(cfg, s) && s.c == Failing2
    ensures s.buf == Empty && s.down == Empty
    ensures s.p == Loop ==> s.up == One(ProcError)
    ensures s.p == ReadError ==> s.up == Empty
  {
    hide Record, Quiet, Losses, WaysOut;
  }

  lemma ReadGoes(cfg: Setup, s: State, extra: nat)
    requires ParentReads(cfg, s, extra).Some?
    ensures var s' := ParentReads(cfg, s, extra).value;
            && s'.c == s.c && s'.killed == s.killed
            && (s'.p == ReadError ==> s.p == Loop)
            && s'.p != Loop && s'.p != Panicked && s'.p != Exiting(false) && s'.p != Returned(true)
            && (s.p == Loop && s.buf == Empty ==> s.up.Pending? && (s.up.head == ProcError <==> s'.p == ReadError))
            && (s.p == ReadError && s.buf == Empty ==> s.up.Pending?)
    ensures s.p == Loop || s.p == ReadError || s.p.AwaitPayload?
  {
    hide TwoPhase, Payload;
    if s.p.AwaitPayload? {
    } else if s.buf.Pending? {
    } else {
    }
  }

  lemma ReadDooms(cfg: Setup, s: State, extra: nat)
    requires Inv(cfg, s) && s.killed && ParentReads(cfg, s, extra).Some?
    ensures Doomed(ParentReads(cfg, s, extra).value) <==> Doomed(s)
  {
    hide ParentReads, Inv;
    ReadGoes(cfg, s, extra);
    if s.c == Failing2 {
      ReportPending(cfg, s);
    }
  }

  lemma FailureGoes(s: State)
    requires HandlerFailure(s).Some?
    ensures HandlerFailure(s).value.p == Exiting(true) || HandlerFailure(s).value.p == Returned(false)
    ensures s.p.Handling? || s.p.Acting? || s.p.Replying? || s.p.Exiting?
  {
  }

  /** Once init is killed, no action changes whether the parent is on its way to the panic. */
  lemma DoomIsSettled(cfg: Setup, s: State, act: Action)
    requires Inv(cfg, s) && s.killed && Next(cfg, s, act).Some?
    ensures Doomed(Next(cfg, s, act).value) <==> Doomed(s)
  {
    hide Inv, ParentStep, ParentReads, ChildStep, ChildReads, HandlerFailure;
    match act
    case Parent => ParentStepDooms(cfg, s);
    case ParentRead(extra) => ReadDooms(cfg, s, extra);
    case HandlerFails => FailureGoes(s);
    case _ =>
  }

  /** Some kill of the run is taken in the middle of a report. */
  ghost predicate KilledMidReport(cfg: Setup, acts: seq<Action>) {
    exists i: nat, r :: KillAt(cfg, acts, i, r) && MidReport(r)
  }

  lemma KilledMidReportStep(cfg: Setup, acts: seq<Action>, r: State)
    requires acts != [] && Execute(cfg, Initial(cfg), acts[..|acts| - 1]) == Some(r)
    ensures KilledMidReport(cfg, acts) <==>
            KilledMidReport(cfg, acts[..|acts| - 1]) || (acts[|acts| - 1] == ChildKilled && MidReport(r))
  {
    hide Execute, MidReport;
    var n := |acts| - 1;
    if i: nat, q :| KillAt(cfg, acts, i, q) && MidReport(q) {
      if i < n {
        KillInPrefix(cfg, acts, i, q);
      }
    }
    if i: nat, q :| KillAt(cfg, acts[..n], i, q) && MidReport(q) {
      KillInPrefix(cfg, acts, i, q);
    }
    if acts[n] == ChildKilled && MidReport(r) {
      assert KillAt(cfg, acts, n, r);
    }
  }

  lemma {:induction false} DoomedIff(cfg: Setup, acts: seq<Action>, s: State)
    requires Execute(cfg, Initial(cfg), acts) == Some(s)
    ensures Doomed(s) <==> KilledMidReport(cfg, acts)
    decreases |acts|
  {
    hide Inv, Next, Onward, MidReport;
    if acts == [] {
      assert !Doomed(Initial(cfg));
    } else {
      hide Execute;
      var n := |acts| - 1;
      var r := LastAction(cfg, acts, s);
      DoomedIff(cfg, acts[..n], r);
      KilledMidReportStep(cfg, acts, r);
      DoomStep(cfg, r, acts[n]);
    }
  }

  lemma DoomStep(cfg: Setup, s: State, act: Action)
    requires Inv(cfg, s) && Next(cfg, s, act).Some?
    ensures Doomed(Next(cfg, s, act).value) <==> Doomed(s) || (act == ChildKilled && MidReport(s))
  {
    hide Inv, MidReport, ParentStep, ParentReads, ChildStep, ChildReads, HandlerFailure;
    if act == ChildKilled {
      KillDooms(cfg, s);
    } else if s.killed {
      DoomIsSettled(cfg, s, act);
    } else {
      NextLeavesLess(cfg, s, act);
    }
  }

  /**
   * The parent panics exactly when init is killed after it announced an error and before it sent the text, while
   * the parent is in its loop or already reads the text. A kill at that point that finds the parent elsewhere, in
   * the middle of an operation or on its way out, ends in an ordinary error.
   */
  lemma PanicCondition(cfg: Setup, acts: seq<Action>, s: State)
    requires Execute(cfg, Initial(cfg), acts) == Some(s) && !CanMove(cfg, s)
    ensures s.p == Panicked <==> KilledMidReport(cfg, acts)
  {
    hide Execute, Inv, CanMove, KilledMidReport;
    InitialInv(cfg);
    ExecuteKeeps(cfg, Initial(cfg), acts);
    DoomedIff(cfg, acts, s);
    PanickedIsDoomed(cfg, s);
    assert Reachable(cfg, s);
    NoDeadlock(cfg, s);
  }

  lemma PanickedIsDoomed(cfg: Setup, s: State)
    requires Inv(cfg, s)
    ensures s.p == Panicked ==> Doomed(s)
  {
    hide Talk, Record, Losses, Quiet;
  }

  // ----- success -----

  /** Init has been told to go on, and nothing is under way between the two. */
  predicate Idle(s: State) {
    s.sentRun && s.p == Loop && s.up == Empty && s.down == Empty
  }

  predicate Spared(s: State) {
    s.killed && s.sentRun &&
    ((s.p == Loop && s.up == Empty && s.buf == Empty && s.down == Empty) || s.p == Exiting(false) ||
     s.p == Returned(true))
  }

  lemma KillSpares(cfg: Setup, s: State)
    requires Inv(cfg, s) && Next(cfg, s, ChildKilled).Some?
    ensures Spared(Next(cfg, s, ChildKilled).value) <==> Idle(s)
  {
    hide Inv, ParentStep, ParentReads, ChildStep, ChildReads, HandlerFailure;
    InLoopWhileAlive(cfg, s);
  }

  lemma InLoopWhileAlive(cfg: Setup, s: State)
    requires Inv(cfg, s) && !s.ChildClosed()
    ensures s.p != Exiting(false) && s.p != Returned(true)
    ensures s.p == Loop ==> s.buf == Empty
  {
    hide Record, Losses, Quiet, RequestAt, After;
  }

  lemma ParentStepSpares(cfg: Setup, s: State)
    requires Inv(cfg, s) && s.killed && ParentStep(cfg, s).Some?
    ensures Spared(ParentStep(cfg, s).value) <==> Spared(s)
  {
    hide ParentStep, Inv;
    ParentActs(cfg, s, ParentStep(cfg, s).value);
    if s.p.Handling? || s.p.Acting? || s.p.Replying? {
      ServingGoes(cfg, s);
    } else {
      LeavingGoes(cfg, s);
    }
  }

  /** Once init is killed, only a failing shutdown changes whether the parent will report success. */
  lemma SparingIsSettled(cfg: Setup, s: State, act: Action)
    requires Inv(cfg, s) && s.killed && Next(cfg, s, act).Some?
    ensures Spared(Next(cfg, s, act).value) <==> Spared(s) && act != HandlerFails
  {
    hide Inv, ParentStep, ParentReads, ChildStep, ChildReads, HandlerFailure;
    match act
    case Parent => ParentStepSpares(cfg, s);
    case ParentRead(extra) => ReadGoes(cfg, s, extra);
    case HandlerFails => FailureGoes(s);
    case _ =>
  }

  lemma SparingStep(cfg: Setup, s: State, act: Action)
    requires Inv(cfg, s) && Next(cfg, s, act).Some?
    ensures Spared(Next(cfg, s, act).value) <==> (Spared(s) && act != HandlerFails) || (act == ChildKilled && Idle(s))
    ensures act == ChildKilled ==> !s.killed
  {
    hide Inv, Idle, ParentStep, ParentReads, ChildStep, ChildReads, HandlerFailure;
    if act == ChildKilled {
      KillSpares(cfg, s);
    } else if s.killed {
      SparingIsSettled(cfg, s, act);
    } else {
      NextLeavesLess(cfg, s, act);
    }
  }

  /** A kill of the run is taken while all is idle, and no handler or shutdown fails after it. */
  ghost predicate KilledIdle(cfg: Setup, acts: seq<Action>) {
    exists i: nat, r :: KillAt(cfg, acts, i, r) && Idle(r) && HandlerFails !in acts[i + 1..]
  }

  lemma KilledIdleStep(cfg: Setup, acts: seq<Action>, r: State)
    requires acts != [] && Execute(cfg, Initial(cfg), acts[..|acts| - 1]) == Some(r)
    ensures KilledIdle(cfg, acts) <==>
            || (KilledIdle(cfg, acts[..|acts| - 1]) && acts[|acts| - 1] != HandlerFails)
            || (acts[|acts| - 1] == ChildKilled && Idle(r))
  {
    hide Execute, Idle;
    var n := |acts| - 1;
    if i: nat, q :| KillAt(cfg, acts, i, q) && Idle(q) && HandlerFails !in acts[i + 1..] {
      if i < n {
        KillInPrefix(cfg, acts, i, q);
        assert acts[i + 1..] == acts[..n][i + 1..] + [acts[n]];
      }
    }
    if acts[n] != HandlerFails {
      if i: nat, q :| KillAt(cfg, acts[..n], i, q) && Idle(q) && HandlerFails !in acts[..n][i + 1..] {
        KillInPrefix(cfg, acts, i, q);
        assert acts[i + 1..] == acts[..n][i + 1..] + [acts[n]];
      }
    }
    if acts[n] == ChildKilled && Idle(r) {
      assert KillAt(cfg, acts, n, r) && acts[n + 1..] == [];
    }
  }

  lemma {:induction false} SparedIff(cfg: Setup, acts: seq<Action>, s: State)
    requires Execute(cfg, Initial(cfg), acts) == Some(s)
    ensures Spared(s) <==> KilledIdle(cfg, acts)
    decreases |acts|
  {
    hide Inv, Next, Idle;
    if acts == [] {
      assert !Spared(Initial(cfg));
    } else {
      hide Execute;
      var n := |acts| - 1;
      var r := LastAction(cfg, acts, s);
      SparedIff(cfg, acts[..n], r);
      KilledIdleStep(cfg, acts, r);
      SparingStep(cfg, r, acts[n]);
    }
  }

  /**
   * A start-up during which init is killed reports success exactly when the kill came after the go-ahead, with the
   * parent in its loop and nothing unread on either side, and the parent's own shutdown did not fail afterwards.
   */
  lemma SuccessAfterKillCondition(cfg: Setup, acts: seq<Action>, s: State)
    requires Execute(cfg, Initial(cfg), acts) == Some(s) && !CanMove(cfg, s) && ChildKilled in acts
    ensures s.p == Returned(true) <==> KilledIdle(cfg, acts)
  {
    hide Execute, Inv, CanMove, KilledIdle;
    InitialInv(cfg);
    ExecuteKeeps(cfg, Initial(cfg), acts);
    SparedIff(cfg, acts, s);
    KilledStays(cfg, acts, s);
    assert Reachable(cfg, s);
    NoDeadlock(cfg, s);
    if s.p == Returned(true) {
      SuccessMeansDone(cfg, s);
    }
  }

  // ----- such a run exists -----

  lemma ReachNext(cfg: Setup, s: State, act: Action, s': State)
    requires Reachable(cfg, s) && Next(cfg, s, act) == Some(s')
    ensures Reachable(cfg, s')
  {
    hide Execute, Next;
    var acts :| Execute(cfg, Initial(cfg), acts) == Some(s);
    ExecuteSnoc(cfg, Initial(cfg), acts, act);
  }

  /** Init is about to make the request at `pos`; all before it has been served, without any fault. */
  function Calm(cfg: Setup, pos: Pos): State {
    State(Working(pos), false, Loop, false, pos, Empty, Empty, Empty,
          PastReady(pos), PastHooks(pos), cfg.fsEnabled && PastRootfs(pos), EventsBefore(cfg, pos), 0, 0, false, false,
            false)
  }

  lemma CalmStart(cfg: Setup)
    ensures Reachable(cfg, Calm(cfg, Start(cfg)))
  {
    assert Execute(cfg, Initial(cfg), []) == Some(Initial(cfg));
    assert Reachable(cfg, Initial(cfg));
    assert Next(cfg, Initial(cfg), ChildRead(0)) == Some(Calm(cfg, Start(cfg)));
    ReachNext(cfg, Initial(cfg), ChildRead(0), Calm(cfg, Start(cfg)));
  }

  lemma OneIsShort<T>(x: T)
    ensures var q := One(x); Length(q) == 1 && Skip(q, 1) == Empty && Taken(q.rest, 0) == Empty
  {
    var q := One(x);
    assert q.rest == Empty && Skip(q.rest, 0) == q.rest;
  }

  /** Init asks and the parent hears it. */
  lemma AskRound(cfg: Setup, pos: Pos, s: State)
    requires pos != AtEnd && Reachable(cfg, s) && s == Calm(cfg, pos)
    ensures Reachable(cfg, s.(c := Asked(pos), p := Handling(RequestAt(pos))))
  {
    hide Reachable, RequestAt, EventsBefore, PastReady, PastHooks, PastRootfs;
    var s1 := s.(c := Asked(pos), up := One(Ask(RequestAt(pos))));
    var s2 := s.(c := Asked(pos), p := Handling(RequestAt(pos)));
    assert Next(cfg, s, Child) == Some(s1);
    ReachNext(cfg, s, Child, s1);
    OneIsShort(Ask(RequestAt(pos)));
    assert Next(cfg, s1, ParentRead(0)) == Some(s2);
    ReachNext(cfg, s1, ParentRead(0), s2);
  }

  /** The go-ahead, and the payload it asks for. */
  lemma PayloadRound(cfg: Setup, pos: Pos, s: State, t: State)
    requires pos != AtEnd && TwoPhase(RequestAt(pos)) && s == Calm(cfg, pos)
    requires t == s.(c := Asked(pos), p := Handling(RequestAt(pos))) && Reachable(cfg, t)
    ensures Reachable(cfg, s.(c := Paid(pos), p := Acting(RequestAt(pos))))
  {
    hide Reachable, EventsBefore, PastReady, PastHooks, PastRootfs;
    var req := RequestAt(pos);
    var s1 := t.(p := AwaitPayload(req), down := One(FirstReply(req)));
    assert Next(cfg, t, Parent) == Some(s1);
    ReachNext(cfg, t, Parent, s1);
    var s2 := s1.(c := Sending(pos), down := Empty);
    assert Next(cfg, s1, ChildRead(0)) == Some(s2);
    ReachNext(cfg, s1, ChildRead(0), s2);
    var s3 := s2.(c := Paid(pos), up := One(Payload(req)));
    assert Next(cfg, s2, Child) == Some(s3);
    ReachNext(cfg, s2, Child, s3);
    var s4 := s.(c := Paid(pos), p := Acting(req));
    assert Next(cfg, s3, ParentRead(0)) == Some(s4);
    ReachNext(cfg, s3, ParentRead(0), s4);
  }

  /** The handler's work, its reply, and init going on. */
  lemma ReplyRound(cfg: Setup, pos: Pos, s: State, t: State)
    requires pos != AtEnd && (pos == AtFd ==> cfg.fd) && (cfg.fsEnabled ==> cfg.preReg) && s == Calm(cfg, pos) &&
             Reachable(cfg, t)
    requires t == if TwoPhase(RequestAt(pos)) then s.(c := Paid(pos), p := Acting(RequestAt(pos)))
                  else s.(c := Asked(pos), p := Handling(RequestAt(pos)))
    ensures Reachable(cfg, Calm(cfg, After(cfg, pos)))
  {
    hide Reachable, EventsBefore, Effects, PastReady, PastHooks, PastRootfs;
    var req := RequestAt(pos);
    NotRefused(cfg, pos);
    var s1 := DoEffects(cfg, t, req);
    assert Next(cfg, t, Parent) == Some(s1);
    ReachNext(cfg, t, Parent, s1);
    var s2 := Reply(cfg, s1, req);
    assert Next(cfg, s1, Parent) == Some(s2);
    ReachNext(cfg, s1, Parent, s2);
    var s3 := s2.(c := Working(After(cfg, pos)), down := Empty);
    assert Next(cfg, s2, ChildRead(0)) == Some(s3);
    ReachNext(cfg, s2, ChildRead(0), s3);
    CalmAfter(cfg, pos, s3.events, s3.reg);
  }

  lemma NotRefused(cfg: Setup, pos: Pos)
    requires pos != AtEnd && (cfg.fsEnabled ==> cfg.preReg)
    ensures RequestAt(pos) == RootfsReady ==> !PastRootfs(pos)
  {
  }

  lemma CalmAfter(cfg: Setup, pos: Pos, events: seq<Event>, reg: bool)
    requires pos != AtEnd && (pos == AtFd ==> cfg.fd)
    requires var before := EventsBefore(cfg, pos) + Effects(cfg, RequestAt(pos));
             events == if RequestAt(pos) == Ready then before + [RunSent] else before
    requires reg == ((cfg.fsEnabled && PastRootfs(pos)) || (RequestAt(pos) == RootfsReady && cfg.fsEnabled))
    ensures events == EventsBefore(cfg, After(cfg, pos)) && reg == (cfg.fsEnabled && PastRootfs(After(cfg, pos)))
    ensures PastReady(After(cfg, pos)) == (PastReady(pos) || RequestAt(pos) == Ready)
    ensures PastHooks(After(cfg, pos)) == (PastHooks(pos) || RequestAt(pos) == Hooks)
  {
    hide EventsBefore, Effects, After, PastReady, PastHooks, PastRootfs;
    RecordAfter(cfg, pos);
    NoEffects(cfg);
    assert EventsBefore(cfg, pos) + [] == EventsBefore(cfg, pos);
  }

  lemma NoEffects(cfg: Setup)
    ensures Effects(cfg, Op) == []
  {
  }

  lemma CalmRound(cfg: Setup, pos: Pos)
    requires pos != AtEnd && (pos == AtFd ==> cfg.fd) && (cfg.fsEnabled ==> cfg.preReg) &&
             Reachable(cfg, Calm(cfg, pos))
    ensures Reachable(cfg, Calm(cfg, After(cfg, pos)))
  {
    hide Reachable, Calm, After, RequestAt;
    var s := Calm(cfg, pos);
    var asked := s.(c := Asked(pos), p := Handling(RequestAt(pos)));
    AskRound(cfg, pos, s);
    if TwoPhase(RequestAt(pos)) {
      PayloadRound(cfg, pos, s, asked);
      ReplyRound(cfg, pos, s, s.(c := Paid(pos), p := Acting(RequestAt(pos))));
    } else {
      ReplyRound(cfg, pos, s, asked);
    }
  }

  lemma {:induction false} CalmReaches(cfg: Setup, pos: Pos)
    requires cfg.fd && (cfg.fsEnabled ==> cfg.preReg) && Reachable(cfg, Calm(cfg, pos)) && !PastReady(pos)
    ensures Reachable(cfg, Calm(cfg, AtFd))
    decreases PosLeft(cfg, pos)
  {
    hide Reachable, Calm;
    CalmRound(cfg, pos);
    AfterLeavesLess(cfg, pos);
    if pos != AtReady {
      CalmReaches(cfg, After(cfg, pos));
    }
  }

  /**
   * In every configuration with a seccomp descriptor to pass in which registration is possible, a run reports
   * success although init was killed and the descriptor never arrived.
   */
  lemma SuccessAfterKillCanHappen(cfg: Setup)
    requires cfg.fd && (cfg.fsEnabled ==> cfg.preReg)
    ensures exists s :: Reachable(cfg, s) && s.p == Returned(true) && s.killed && s.events + [FdTaken] == Script(cfg)
  {
    hide Reachable, Script, EventsBefore;
    CalmStart(cfg);
    CalmReaches(cfg, Start(cfg));
    var s := Calm(cfg, AtFd);
    var s1 := s.(killed := true, faulted := true);
    assert Next(cfg, s, ChildKilled) == Some(s1);
    ReachNext(cfg, s, ChildKilled, s1);
    var s2 := s1.(p := Exiting(false));
    assert Next(cfg, s1, Parent) == Some(s2);
    ReachNext(cfg, s1, Parent, s2);
    var s3 := s2.(p := Returned(true), shut := true);
    assert Next(cfg, s2, Parent) == Some(s3);
    ReachNext(cfg, s2, Parent, s3);
    FdIsLast(cfg);
  }

  lemma FdIsLast(cfg: Setup)
    requires cfg.fd
    ensures EventsBefore(cfg, AtFd) + [FdTaken] == Script(cfg)
  {
  }
}
