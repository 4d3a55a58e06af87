/**
 * The life cycle of a container inside the runtime: a state object that is refreshed from what can be observed,
 * moved by transitions, and destroyed. What a call observes is an argument of it; a call that looks twice may
 * see two different things.
 */
module ContainerState {

  datatype Status = CreatedStatus | RunningStatus | PausedStatus | StoppedStatus

  datatype Kind = Stopped | Running | Created | Paused | Restored | Loaded(status: Status)

  function StatusOf(k: Kind): Status {
    match k
    case Stopped => StoppedStatus
    case Running | Restored => RunningStatus
    case Created => CreatedStatus
    case Paused => PausedStatus
    case Loaded(s) => s
  }

  function KindOf(s: Status): Kind {
    match s
    case StoppedStatus => Stopped
    case RunningStatus => Running
    case CreatedStatus => Created
    case PausedStatus => Paused
  }

  /** What the freezer says. */
  datatype Freezer = Frozen | Thawed | Unreadable

  /** `alive`: the recorded process exists, started when recorded, and is neither zombie nor dead. */
  datatype Seen = Seen(freezer: Freezer, alive: bool, fifo: bool)

  function RunType(hasInit: bool, seen: Seen): Status {
    if !hasInit || !seen.alive then StoppedStatus
    else if seen.fifo then CreatedStatus
    else RunningStatus
  }

  /** The status that an observation stands for. */
  function Observed(hasInit: bool, seen: Seen): Status {
    if seen.freezer == Frozen then PausedStatus else RunType(hasInit, seen)
  }

  /** `cleanups` counts how often the container's resources were removed. */
  datatype Record = Record(kind: Kind, hasInit: bool, cleanups: nat)

  /** Whether the state object lets itself be replaced by the given one; `t` is what a second look finds. */
  predicate Permits(from: Kind, to: Kind, t: Status) {
    match from
    case Stopped => to == Running || to == Restored || to == Stopped
    case Running => (to == Stopped && t != RunningStatus) || to == Paused || to == Running
    case Created => to == Running || to == Paused || to == Stopped || to == Created
    case Paused => to == Running || to == Stopped || to == Paused
    case Restored => to == Stopped || to == Running
    case Loaded(_) => true
  }

  function Moved(r: Record, to: Kind): Record {
    if r.kind == Restored then r else r.(kind := to)
  }

  function CleanedUp(r: Record): Record {
    Record(Stopped, false, r.cleanups + 1)
  }

  /** Whether destroying a container in this state gets as far as removing its resources. */
  predicate MayCleanUp(kind: Kind, t: Status, thawOk: bool, checkpointOk: bool) {
    match kind
    case Stopped | Created => true
    case Running => t != RunningStatus
    case Paused => t != RunningStatus && t != CreatedStatus && thawOk
    case Restored => checkpointOk
    case Loaded(_) => false
  }

  function Refreshed(r: Record, seen: Seen, later: Seen): (bool, Record) {
    var to := KindOf(Observed(r.hasInit, seen));
    if seen.freezer == Unreadable || !Permits(r.kind, to, RunType(r.hasInit, later)) then (false, r)
    else (true, Moved(r, to))
  }

  function DestroyedOnce(r: Record, seen: Seen, thawOk: bool, checkpointOk: bool): (bool, Record) {
    if MayCleanUp(r.kind, RunType(r.hasInit, seen), thawOk, checkpointOk) then (true, CleanedUp(r)) else (false, r)
  }

  /** A loaded container is refreshed first, and then destroyed in the state found. */
  function Destroyed(r: Record, seen: Seen, later: Seen, last: Seen, thawOk: bool, checkpointOk: bool): (bool, Record) {
    if !r.kind.Loaded? then DestroyedOnce(r, last, thawOk, checkpointOk)
    else
      var (ok, found) := Refreshed(r, seen, later);
      if !ok then (false, found) else DestroyedOnce(found, last, thawOk, checkpointOk)
  }

  /**
   * Pausing refreshes first and goes on only for a running or created container; `reached` tells whether freezing
   * and what follows it get as far as the transition.
   */
  function PausedBy(r: Record, seen: Seen, later: Seen, reached: bool): (bool, Record) {
    var (ok, found) := Refreshed(r, seen, later);
    var status := StatusOf(found.kind);
    if !ok || !(status == RunningStatus || status == CreatedStatus) || !reached then (false, found)
    else if !Permits(found.kind, Paused, status) then (false, found)
    else (true, Moved(found, Paused))
  }

  /** Resuming refreshes first and goes on only for a paused container. */
  function ResumedBy(r: Record, seen: Seen, later: Seen, reached: bool): (bool, Record) {
    var (ok, found) := Refreshed(r, seen, later);
    if !ok || StatusOf(found.kind) != PausedStatus || !reached then (false, found)
    else if !Permits(found.kind, Running, PausedStatus) then (false, found)
    else (true, Moved(found, Running))
  }

  class Container {
    var kind: Kind
    var hasInit: bool
    var cleanups: nat

    function State(): Record
      reads this
    {
      Record(kind, hasInit, cleanups)
    }

    constructor Create()
      ensures State() == Record(Stopped, false, 0)
    {
      kind, hasInit, cleanups := Stopped, false, 0;
    }

    constructor Load()
      ensures State() == Record(Loaded(CreatedStatus), true, 0)
    {
      kind, hasInit, cleanups := Loaded(CreatedStatus), true, 0;
    }

    method Transition(to: Kind, seen: Seen) returns (ok: bool)
      modifies this
      ensures ok == Permits(old(kind), to, RunType(old(hasInit), seen))
      ensures State() == if ok then Moved(old(State()), to) else old(State())
    {
      match kind
      case Stopped =>
        if to == Running || to == Restored {
          kind := to;
          return true;
        }
        return to == Stopped;
      case Running =>
        if to == Stopped {
          if RunType(hasInit, seen) == RunningStatus {
            return false;
          }
          kind := to;
          return true;
        }
        if to == Paused {
          kind := to;
          return true;
        }
        return to == Running;
      case Created =>
        if to == Running || to == Paused || to == Stopped {
          kind := to;
          return true;
        }
        return to == Created;
      case Paused =>
        if to == Running || to == Stopped {
          kind := to;
          return true;
        }
        return to == Paused;
      case Restored =>
        return to == Stopped || to == Running;
      case Loaded(_) =>
        kind := to;
        return true;
    }

    method RefreshState(seen: Seen, later: Seen) returns (ok: bool)
      modifies this
      ensures (ok, State()) == Refreshed(old(State()), seen, later)
    {
      if seen.freezer == Unreadable {
        return false;
      }
      if seen.freezer == Frozen {
        ok := Transition(Paused, later);
        return;
      }
      var t := RunType(hasInit, seen);
      if t == CreatedStatus {
        ok := Transition(Created, later);
      } else if t == RunningStatus {
        ok := Transition(Running, later);
      } else {
        ok := Transition(Stopped, later);
      }
    }

    /** The result tells whether the transition was made. */
    method Pause(seen: Seen, later: Seen, reached: bool) returns (ok: bool)
      modifies this
      ensures (ok, State()) == PausedBy(old(State()), seen, later, reached)
    {
      ok := RefreshState(seen, later);
      if !ok {
        return false;
      }
      var status := StatusOf(kind);
      if status != RunningStatus && status != CreatedStatus {
        return false;
      }
      if !reached {
        return false;
      }
      ok := Transition(Paused, later);
    }

    method Resume(seen: Seen, later: Seen, reached: bool) returns (ok: bool)
      modifies this
      ensures (ok, State()) == ResumedBy(old(State()), seen, later, reached)
    {
      ok := RefreshState(seen, later);
      if !ok {
        return false;
      }
      if StatusOf(kind) != PausedStatus {
        return false;
      }
      if !reached {
        return false;
      }
      ok := Transition(Running, later);
    }

    /** Removes the container's resources; errors on the way are reported but do not stop it. */
    method CleanUp()
      modifies this
      ensures State() == CleanedUp(old(State()))
    {
      cleanups := cleanups + 1;
      hasInit := false;
      kind := Stopped;
    }

    /** `reached` tells whether the resources were removed. */
    method Destroy(seen: Seen, later: Seen, last: Seen, thawOk: bool, checkpointOk: bool) returns (reached: bool)
      modifies this
      ensures (reached, State()) == Destroyed(old(State()), seen, later, last, thawOk, checkpointOk)
      decreases if kind.Loaded? then 1 else 0
    {
      match kind
      case Stopped | Created =>
        CleanUp();
        return true;
      case Running =>
        if RunType(hasInit, last) == RunningStatus {
          return false;
        }
        CleanUp();
        return true;
      case Paused =>
        var t := RunType(hasInit, last);
        if t != RunningStatus && t != CreatedStatus {
          if !thawOk {
            return false;
          }
          CleanUp();
          return true;
        }
        return false;
      case Restored =>
        if !checkpointOk {
          return false;
        }
        CleanUp();
        return true;
      case Loaded(_) =>
        var ok := RefreshState(seen, later);
        if !ok {
          return false;
        }
        reached := Destroy(seen, later, last, thawOk, checkpointOk);
    }
  }

  // ----- one call -----

  /**
   * After a successful refresh the reported status is the observed one, except that a restored container always
   * reports running. A loaded one no longer is.
   */
  lemma StatusIsObserved(r: Record, seen: Seen, later: Seen)
    requires Refreshed(r, seen, later).0
    ensures StatusOf(Refreshed(r, seen, later).1.kind) == Observed(r.hasInit, seen) <==>
            !(r.kind == Restored && Observed(r.hasInit, seen) == StoppedStatus)
    ensures !Refreshed(r, seen, later).1.kind.Loaded? && Refreshed(r, seen, later).1.hasInit == r.hasInit
  {
    match r.kind
    case Restored =>
    case _ =>
  }

  /** Exactly when a refresh fails, with everything it can see. */
  lemma RefreshFailsWhen(r: Record, seen: Seen, later: Seen)
    ensures var o := Observed(r.hasInit, seen);
            !Refreshed(r, seen, later).0 <==>
              || seen.freezer == Unreadable
              || (r.kind == Stopped && (o == CreatedStatus || o == PausedStatus))
              || (r.kind == Running && o == CreatedStatus)
              || (r.kind == Running && o == StoppedStatus && RunType(r.hasInit, later) == RunningStatus)
              || (r.kind == Paused && o == CreatedStatus)
              || (r.kind == Restored && (o == CreatedStatus || o == PausedStatus))
  {
  }

  /**
   * Resources of a paused container are removed only when its init is gone. For a running one that holds as long
   * as the exec fifo is gone; if it is there, they are removed whether or not init is alive.
   */
  lemma CleanUpNeedsDeadInit(r: Record, seen: Seen, thawOk: bool, checkpointOk: bool)
    ensures r.kind == Paused ==>
            (DestroyedOnce(r, seen, thawOk, checkpointOk).0 <==> !(r.hasInit && seen.alive) && thawOk)
    ensures r.kind == Running ==>
            (DestroyedOnce(r, seen, thawOk, checkpointOk).0 <==> !(r.hasInit && seen.alive) || seen.fifo)
  {
  }

  /** Exactly when pausing succeeds, from what is seen; it leaves the container as the refresh does, but paused. */
  lemma PauseSucceedsWhen(r: Record, seen: Seen, later: Seen, reached: bool)
    requires r.kind != Restored
    ensures var (ok, after) := PausedBy(r, seen, later, reached);
            && (ok <==> Refreshed(r, seen, later).0 && seen.freezer != Frozen && r.hasInit && seen.alive && reached)
            && after == if ok then r.(kind := Paused) else Refreshed(r, seen, later).1
  {
    if Refreshed(r, seen, later).0 {
      StatusIsObserved(r, seen, later);
    }
  }

  /** Likewise for resuming. A container that was created when it was paused is running when it is resumed. */
  lemma ResumeSucceedsWhen(r: Record, seen: Seen, later: Seen, reached: bool)
    requires r.kind != Restored
    ensures var (ok, after) := ResumedBy(r, seen, later, reached);
            && (ok <==> Refreshed(r, seen, later).0 && seen.freezer == Frozen && reached)
            && after == if ok then r.(kind := Running) else Refreshed(r, seen, later).1
  {
    if Refreshed(r, seen, later).0 {
      StatusIsObserved(r, seen, later);
    }
  }

  // ----- runs -----

  /**
   * `Begin` records a new init process and `Ready` makes the container created, as starting does; the other calls
   * are those above. A container is never put into the restored state here.
   */
  datatype Call =
    | Begin
    | Ready
    | Refresh(seen: Seen, later: Seen)
    | Pause(seen: Seen, later: Seen, reached: bool)
    | Resume(seen: Seen, later: Seen, reached: bool)
    | Destroy(first: Seen, second: Seen, last: Seen, thawOk: bool)

  function Step(r: Record, call: Call): Record {
    match call
    case Begin => r.(hasInit := true)
    case Ready => if r.hasInit then r.(kind := Created) else r
    case Refresh(seen, later) => Refreshed(r, seen, later).1
    case Pause(seen, later, reached) => PausedBy(r, seen, later, reached).1
    case Resume(seen, later, reached) => ResumedBy(r, seen, later, reached).1
    case Destroy(first, second, last, thawOk) => Destroyed(r, first, second, last, thawOk, true).1
  }

  function Run(r: Record, calls: seq<Call>): Record
    decreases |calls|
  {
    if calls == [] then r else Run(Step(r, calls[0]), calls[1..])
  }

  /** A created container has an init process to signal. */
  predicate Sound(r: Record) {
    r.kind != Restored && (r.kind == Created ==> r.hasInit)
  }

  predicate IsNew(r: Record) {
    r == Record(Stopped, false, 0) || r == Record(Loaded(CreatedStatus), true, 0)
  }

  lemma StepKeepsSound(r: Record, call: Call)
    requires Sound(r)
    ensures Sound(Step(r, call))
    ensures Step(r, call).cleanups > r.cleanups ==>
              call.Destroy? && Step(r, call) == Record(Stopped, false, r.cleanups + 1)
    ensures Step(r, call).cleanups >= r.cleanups
    ensures r.hasInit && !Step(r, call).hasInit ==> Step(r, call).cleanups > r.cleanups
  {
    match call
    case Destroy(first, second, last, thawOk) =>
      if r.kind.Loaded? {
        var (ok, found) := Refreshed(r, first, second);
        assert ok ==> found.kind == KindOf(Observed(r.hasInit, first)) && found.cleanups == r.cleanups;
      }
    case _ =>
  }

  /** The state in which a destroy call finds the container, after the refresh of a loaded one. */
  function Found(s: Record, call: Call): Kind
    requires call.Destroy?
  {
    if s.kind.Loaded? then Refreshed(s, call.first, call.second).1.kind else s.kind
  }

  /** When the resources of a paused or running container may go. */
  predicate MayLose(kind: Kind, hasInit: bool, seen: Seen) {
    && (kind == Paused ==> !(hasInit && seen.alive))
    && (kind == Running ==> !(hasInit && seen.alive) || seen.fifo)
  }

  lemma OneStep(s: Record, call: Call)
    requires Sound(s)
    ensures CallIsSafe(s, call)
  {
    StepKeepsSound(s, call);
    if call.Refresh? && Refreshed(s, call.seen, call.later).0 {
      StatusIsObserved(s, call.seen, call.later);
    }
    if call.Destroy? {
      var r := if s.kind.Loaded? then Refreshed(s, call.first, call.second).1 else s;
      CleanUpNeedsDeadInit(r, call.last, call.thawOk, true);
    }
  }

  /** What holds around one call of a run. */
  ghost predicate CallIsSafe(s: Record, call: Call) {
    && Sound(s)
    && (call.Refresh? && Refreshed(s, call.seen, call.later).0 ==>
        StatusOf(Step(s, call).kind) == Observed(s.hasInit, call.seen))
    && (Step(s, call).cleanups > s.cleanups ==>
          call.Destroy? && MayLose(Found(s, call), s.hasInit, call.last) && Step(s, call).kind == Stopped &&
            !Step(s, call).hasInit)
  }

  lemma {:induction false} RunFrom(r: Record, calls: seq<Call>, i: nat)
    requires Sound(r) && i < |calls|
    ensures CallIsSafe(Run(r, calls[..i]), calls[i])
    ensures Run(r, calls[..i + 1]) == Step(Run(r, calls[..i]), calls[i])
    decreases |calls|
  {
    hide Step, Sound;
    if i == 0 {
      assert calls[..0] == [] && calls[..1] == [calls[0]] && [calls[0]][1..] == [];
      OneStep(r, calls[0]);
    } else {
      assert calls[..i][1..] == calls[1..][..i - 1] && calls[..i + 1][1..] == calls[1..][..i];
      StepKeepsSound(r, calls[0]);
      RunFrom(Step(r, calls[0]), calls[1..], i - 1);
    }
  }

  /**
   * In every run from a new or a loaded container, at every call: the init process that destroying a created
   * container signals is there; a successful refresh reports what was observed; and a clean-up happens to a paused
   * or running container only as its guard allows, and leaves it stopped and without an init process.
   */
  lemma EveryRun(r: Record, calls: seq<Call>, i: nat)
    requires IsNew(r) && i < |calls|
    ensures CallIsSafe(Run(r, calls[..i]), calls[i])
    ensures Run(r, calls[..i + 1]) == Step(Run(r, calls[..i]), calls[i])
  {
    RunFrom(r, calls, i);
  }

  /** What destroying does to a container, told by what is seen: `first` when it is loaded, `last` in the end. */
  predicate IsDestroyed(s: Record, call: Call, after: Record)
    requires call.Destroy?
  {
    var alive := s.hasInit && call.last.alive;
    if s.kind.Loaded? && call.first.freezer == Unreadable then after == s
    else
      var found :=
        if !s.kind.Loaded? then s.kind
        else if call.first.freezer == Frozen then Paused
        else if !(s.hasInit && call.first.alive) then Stopped
        else if call.first.fifo then Created
        else Running;
      if
        || found == Stopped
        || found == Created
        || (found == Running && (!alive || call.last.fifo))
        || (found == Paused && !alive && call.thawOk)
      then after == Record(Stopped, false, s.cleanups + 1)
      else after == Record(found, s.hasInit, s.cleanups)
  }

  /**
   * Whether the resources go, for every destroy call of every run, in both directions. In particular they go
   * whenever the container could be observed, its init is gone and thawing works; and for a created one always.
   */
  lemma EveryDestroy(r: Record, calls: seq<Call>, i: nat)
    requires IsNew(r) && i < |calls| && calls[i].Destroy?
    ensures var s, after := Run(r, calls[..i]), Run(r, calls[..i + 1]);
            var call := calls[i];
            && IsDestroyed(s, call, after)
            && (!(s.kind.Loaded? && call.first.freezer == Unreadable) && !(s.hasInit && call.last.alive) &&
                  call.thawOk ==>
                  after == Record(Stopped, false, s.cleanups + 1))
            && (s.kind == Created ==> after == Record(Stopped, false, s.cleanups + 1))
  {
    EveryRun(r, calls, i);
    hide Run;
    DestroyOnce(Run(r, calls[..i]), calls[i]);
  }

  lemma DestroyOnce(s: Record, call: Call)
    requires Sound(s) && call.Destroy?
    ensures IsDestroyed(s, call, Step(s, call))
  {
    if s.kind.Loaded? {
      var (ok, found) := Refreshed(s, call.first, call.second);
      assert ok <==> call.first.freezer != Unreadable;
      assert ok ==> found == s.(kind := KindOf(Observed(s.hasInit, call.first)));
    }
  }

  /**
   * That case comes up: a container that one process creates, pauses and resumes before its command is started is
   * in the running state while the fifo is still there, and destroying it then removes the resources of a live init.
   */
  lemma LiveInitCleanedUp(seen: Seen, frozen: Seen, calls: seq<Call>)
    requires seen == Seen(Thawed, true, true) && frozen == Seen(Frozen, true, true)
    requires calls ==
             [Begin, Ready, Pause(seen, seen, true), Resume(frozen, frozen, true), Destroy(seen, seen, seen, true)]
    ensures Run(Record(Stopped, false, 0), calls[..4]) == Record(Running, true, 0)
    ensures Run(Record(Stopped, false, 0), calls) == Record(Stopped, false, 1)
  {
    hide Step, Run;
    var r := Record(Stopped, false, 0);
    StepsThere(seen, frozen);
    OneByOne(r, calls, 0);
    OneByOne(r, calls, 1);
    OneByOne(r, calls, 2);
    OneByOne(r, calls, 3);
    OneByOne(r, calls, 4);
    assert calls[..0] == [] && calls[..5] == calls;
    NothingDone(r);
  }

  lemma NothingDone(r: Record)
    ensures Run(r, []) == r
  {
  }

  lemma StepsThere(seen: Seen, frozen: Seen)
    requires seen == Seen(Thawed, true, true) && frozen == Seen(Frozen, true, true)
    ensures Step(Record(Stopped, false, 0), Begin) == Record(Stopped, true, 0)
    ensures Step(Record(Stopped, true, 0), Ready) == Record(Created, true, 0)
    ensures Step(Record(Created, true, 0), Pause(seen, seen, true)) == Record(Paused, true, 0)
    ensures Step(Record(Paused, true, 0), Resume(frozen, frozen, true)) == Record(Running, true, 0)
    ensures Step(Record(Running, true, 0), Destroy(seen, seen, seen, true)) == Record(Stopped, false, 1)
  {
  }

  /** A process that loads the container anew does not get there: its refresh finds a created container. */
  lemma LoadedIsRefreshed(seen: Seen, later: Seen)
    requires seen == Seen(Thawed, true, true)
    ensures Refreshed(Record(Loaded(CreatedStatus), true, 0), seen, later) == (true, Record(Created, true, 0))
  {
  }

  lemma OneByOne(r: Record, calls: seq<Call>, i: nat)
    requires IsNew(r) && i < |calls|
    ensures Run(r, calls[..i + 1]) == Step(Run(r, calls[..i]), calls[i])
  {
    EveryRun(r, calls, i);
  }
}
