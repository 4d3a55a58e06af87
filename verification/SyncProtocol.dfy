/**
 * The message protocol between the Go parent and the container's init process, from the moment the parent has
 * sent the configuration. A step is one read, write, handler run or close by one side.
 *
 * A JSON decoder may pull more from the pipe than the message it returns. The parent's loop keeps one decoder,
 * so what it pulls early waits in its buffer; every other read uses a fresh decoder, and what that one pulls
 * beyond its message is lost.
 */
module SyncProtocol {
  import opened Wrappers
  import opened Pipes

  /** What init asks of its parent. */
  datatype Request = Op | Hooks | RootfsReady | Ready | SeccompFd

  datatype Up = Ask(req: Request) | OpInfo | FdPayload | ProcError | ErrorPayload

  datatype Down = InitConfig | SendOpInfo | OpDone | Resume | RootfsAck | Run | SendFd | FdDone

  datatype Event = HooksRun | Registered | StateSaved | RunSent | FdTaken

  /**
   * What init's script depends on: how many operations it requests before the hooks and after registration,
   * and whether it has a seccomp notification fd to pass.
   */
  datatype Setup = Setup(newns: bool, hooks: bool, fsEnabled: bool, preReg: bool, early: nat, late: nat, fd: bool)

  /** A place in init's script; `left` counts the operations that follow this one. */
  datatype Pos = EarlyOp(left: nat) | AtHooks | AtRootfs | LateOp(left: nat) | AtReady | AtFd | AtEnd

  datatype ChildPc =
    | AwaitConfig
    | Working(pos: Pos)
    | Asked(pos: Pos)
    | Sending(pos: Pos)
    | Paid(pos: Pos)
    | Failing
    | Failing2
    | Exited
    | Closed

  datatype ParentPc =
    | Loop
    | Handling(req: Request)
    | Replying(req: Request)
    | AwaitPayload(req: Request)
    | Acting(req: Request)
    | ReadError
    | Exiting(failed: bool)
    | Waiting
    | Returned(ok: bool)
    | Panicked

  /**
   * `next` is the place in the script that the parent will serve next; `lostUp` and `lostDown` count messages
   * thrown away with a fresh decoder; `mismatch` records that init met a reply it did not expect.
   */
  datatype State = State(
    c: ChildPc, killed: bool,
    p: ParentPc, shut: bool, next: Pos,
    up: Pipe<Up>, buf: Pipe<Up>, down: Pipe<Down>,
    sentRun: bool, sentResume: bool, reg: bool, events: seq<Event>,
    lostUp: nat, lostDown: nat, mismatch: bool, killedMid: bool, faulted: bool)
  {
    /** Init's end of the pipe is closed. */
    predicate ChildClosed() {
      killed || c == Exited || c == Closed
    }

    predicate ParentGone() {
      p.Returned? || p == Panicked
    }

    /** The parent returns an error: init is killed on the way out. */
    function Fail(): State {
      this.(p := Returned(false), shut := true, killed := killed || c != Exited)
    }
  }

  // ----- the script -----

  function Start(cfg: Setup): Pos {
    if cfg.early == 0 then AtHooks else EarlyOp(cfg.early - 1)
  }

  function After(cfg: Setup, pos: Pos): Pos {
    match pos
    case EarlyOp(left) => if left == 0 then AtHooks else EarlyOp(left - 1)
    case AtHooks => AtRootfs
    case AtRootfs => if cfg.late == 0 then AtReady else LateOp(cfg.late - 1)
    case LateOp(left) => if left == 0 then AtReady else LateOp(left - 1)
    case AtReady => if cfg.fd then AtFd else AtEnd
    case AtFd => AtEnd
    case AtEnd => AtEnd
  }

  function RequestAt(pos: Pos): Request
    requires pos != AtEnd
  {
    match pos
    case EarlyOp(_) | LateOp(_) => Op
    case AtHooks => Hooks
    case AtRootfs => RootfsReady
    case AtReady => Ready
    case AtFd => SeccompFd
  }

  // ----- the parent's side of each exchange -----

  /** Requests that the parent answers with a go-ahead, to read a payload before its final reply. */
  predicate TwoPhase(req: Request) {
    req == Op || req == SeccompFd
  }

  function FirstReply(req: Request): Down {
    match req
    case Op => SendOpInfo
    case SeccompFd => SendFd
    case Hooks => Resume
    case RootfsReady => RootfsAck
    case Ready => Run
  }

  /** What the parent reads after its go-ahead. */
  function Payload(req: Request): Up
    requires TwoPhase(req)
  {
    if req == Op then OpInfo else FdPayload
  }

  function FinalReply(req: Request): Down {
    match req
    case Op => OpDone
    case SeccompFd => FdDone
    case _ => FirstReply(req)
  }

  // ----- init's side of each exchange -----

  /** What init does with one request: the reply it waits for, and what it sends on that before the last one. */
  datatype Exchange = Once(reply: Down) | Twice(goAhead: Down, payload: Up, reply: Down)

  function Exchanged(req: Request): Exchange {
    match req
    case Ready => Once(Run)
    case Hooks => Once(Resume)
    case Op => Twice(SendOpInfo, OpInfo, OpDone)
    case SeccompFd => Twice(SendFd, FdPayload, FdDone)
    case RootfsReady => Once(RootfsAck)
  }

  function Awaited(req: Request): Down {
    match Exchanged(req)
    case Once(reply) => reply
    case Twice(goAhead, _, _) => goAhead
  }

  /** What each side sends is what the other waits for at that point. */
  lemma SidesAgree(req: Request)
    ensures Exchanged(req) == if TwoPhase(req) then Twice(FirstReply(req), Payload(req), FinalReply(req))
                              else Once(FinalReply(req))
    ensures Awaited(req) == FirstReply(req)
  {
  }

  // ----- init -----

  function ChildStep(cfg: Setup, s: State): Option<State>
    requires !s.ChildClosed()
  {
    match s.c
    case Working(pos) =>
      if pos == AtEnd then Some(s.(c := Closed))
      else if s.ParentGone() then Some(s.(c := Exited))
      else Some(s.(c := Asked(pos), up := Write(s.up, Ask(RequestAt(pos)))))
    case Sending(pos) =>
      if pos == AtEnd || !Exchanged(RequestAt(pos)).Twice? then None
      else if s.ParentGone() then Some(s.(c := Exited))
      else Some(s.(c := Paid(pos), up := Write(s.up, Exchanged(RequestAt(pos)).payload)))
    case Failing =>
      if s.ParentGone() then Some(s.(c := Exited)) else Some(s.(c := Failing2, up := Write(s.up, ProcError)))
    case Failing2 =>
      if s.ParentGone() then Some(s.(c := Exited)) else Some(s.(c := Exited, up := Write(s.up, ErrorPayload)))
    case AwaitConfig | Asked(_) | Paid(_) =>
      if s.down == Empty && s.shut then Some(s.(c := Failing)) else None
    case _ => None
  }

  /** Where init goes on the message it waits for; anything else makes it fail. */
  function OnMessage(cfg: Setup, c: ChildPc, msg: Down): Option<ChildPc> {
    match c
    case AwaitConfig => if msg == InitConfig then Some(Working(Start(cfg))) else None
    case Asked(pos) =>
      if pos == AtEnd || msg != Awaited(RequestAt(pos)) then None
      else Some(if Exchanged(RequestAt(pos)).Twice? then Sending(pos) else Working(After(cfg, pos)))
    case Paid(pos) =>
      if pos == AtEnd || msg != Exchanged(RequestAt(pos)).reply then None else Some(Working(After(cfg, pos)))
    case _ => None
  }

  /** Init reads one message with a fresh decoder that pulls `extra` more. */
  function ChildReads(cfg: Setup, s: State, extra: nat): Option<State>
    requires !s.ChildClosed()
  {
    if !(s.c == AwaitConfig || s.c.Asked? || s.c.Paid?) || extra >= Length(s.down) then None
    else
      var to := OnMessage(cfg, s.c, s.down.head);
      Some(s.(c := if to.Some? then to.value else Failing,
              mismatch := s.mismatch || to.None?,
              down := Skip(s.down, extra + 1),
              lostDown := s.lostDown + extra))
  }

  // ----- the parent -----

  /** What a handler does before it replies. */
  function Effects(cfg: Setup, req: Request): seq<Event> {
    match req
    case Hooks => if cfg.hooks then [HooksRun] else []
    case RootfsReady => if cfg.fsEnabled then [Registered] else []
    case Ready => (if !cfg.newns && cfg.hooks then [HooksRun] else []) + [StateSaved]
    case SeccompFd => [FdTaken]
    case Op => []
  }

  /** Registration is refused unless the container was pre-registered and not yet registered. */
  predicate Refuses(cfg: Setup, s: State, req: Request) {
    req == RootfsReady && cfg.fsEnabled && (!cfg.preReg || s.reg)
  }

  function DoEffects(cfg: Setup, s: State, req: Request): State {
    if Refuses(cfg, s, req) then s.(p := Exiting(true))
    else s.(p := Replying(req), events := s.events + Effects(cfg, req),
            reg := s.reg || (req == RootfsReady && cfg.fsEnabled))
  }

  function Reply(cfg: Setup, s: State, req: Request): State {
    s.(p := Loop, next := After(cfg, s.next), down := Write(s.down, FinalReply(req)),
       sentRun := s.sentRun || req == Ready,
       sentResume := s.sentResume || req == Hooks,
       events := if req == Ready then s.events + [RunSent] else s.events)
  }

  /** Reading from a peer that left data unread is an error; otherwise a closed peer gives end of file. */
  function ParentStep(cfg: Setup, s: State): Option<State> {
    match s.p
    case Loop =>
      if s.buf == Empty && s.up == Empty && s.ChildClosed() then Some(s.(p := Exiting(s.down.Pending?))) else None
    case Handling(req) =>
      if TwoPhase(req) then
        Some(if s.ChildClosed() then s.(p := Exiting(true))
             else s.(p := AwaitPayload(req), down := Write(s.down, FirstReply(req))))
      else Some(DoEffects(cfg, s, req))
    case AwaitPayload(_) =>
      if s.up == Empty && s.ChildClosed() then Some(s.(p := Exiting(true))) else None
    case Acting(req) => Some(DoEffects(cfg, s, req))
    case Replying(req) => Some(if s.ChildClosed() then s.(p := Exiting(true)) else Reply(cfg, s, req))
    case ReadError =>
      if s.buf == Empty && s.up == Empty && s.ChildClosed() then
        Some(s.(p := if s.down.Pending? then Exiting(true) else Panicked))
      else None
    case Exiting(failed) =>
      if !s.sentRun || (cfg.newns && !s.sentResume) then Some(s.Fail())
      else Some(s.(p := if failed then Waiting else Returned(true), shut := true))
    case Waiting => if s.killed || s.c == Exited then Some(s.Fail()) else None
    case Returned(_) | Panicked => None
  }

  /** What the parent does with a decoded message. */
  function OnDecoded(p: ParentPc, msg: Up): ParentPc {
    match p
    case Loop =>
      (match msg
       case Ask(req) => Handling(req)
       case ProcError => ReadError
       case _ => Exiting(true))
    case AwaitPayload(req) => if TwoPhase(req) && msg == Payload(req) then Acting(req) else Exiting(true)
    case _ => Exiting(true)
  }

  /**
   * The loop's decoder serves its buffer first and keeps what it pulls early; the payload of an operation is read
   * with a fresh decoder; a descriptor is received as it is, one message.
   */
  function ParentReads(cfg: Setup, s: State, extra: nat): Option<State> {
    match s.p
    case Loop | ReadError =>
      if s.buf.Pending? then
        if extra == 0 then Some(s.(p := OnDecoded(s.p, s.buf.head), buf := s.buf.rest)) else None
      else if extra >= Length(s.up) then None
      else Some(s.(p := OnDecoded(s.p, s.up.head), buf := Taken(s.up.rest, extra), up := Skip(s.up, extra + 1)))
    case AwaitPayload(req) =>
      if extra >= Length(s.up) || (req == SeccompFd && extra != 0) then None
      else Some(s.(p := OnDecoded(s.p, s.up.head), up := Skip(s.up, extra + 1), lostUp := s.lostUp + extra))
    case _ => None
  }

  // ----- runs -----

  datatype Action =
    | Parent | ParentRead(extra: nat) | Child | ChildRead(extra: nat)
    | HandlerFails | ChildFails | ChildKilled

  predicate IsFault(act: Action) {
    act == HandlerFails || act == ChildFails || act == ChildKilled
  }

  /** A handler, a reply or the final shutdown fails. */
  function HandlerFailure(s: State): Option<State> {
    match s.p
    case Handling(_) | Acting(_) | Replying(_) => Some(s.(p := Exiting(true), faulted := true))
    case Exiting(_) => Some(s.Fail().(faulted := true))
    case _ => None
  }

  function Next(cfg: Setup, s: State, act: Action): Option<State> {
    match act
    case Parent => ParentStep(cfg, s)
    case ParentRead(extra) => ParentReads(cfg, s, extra)
    case Child => if s.ChildClosed() then None else ChildStep(cfg, s)
    case ChildRead(extra) => if s.ChildClosed() then None else ChildReads(cfg, s, extra)
    case HandlerFails => HandlerFailure(s)
    case ChildFails =>
      if !s.ChildClosed() && (s.c.Working? || s.c.Sending?) then Some(s.(c := Failing, faulted := true)) else None
    case ChildKilled =>
      if s.ChildClosed() then None
      else Some(s.(killed := true, killedMid := s.killedMid || s.c == Failing2, faulted := true))
  }

  /** The state after a run, if every action of it can be taken in turn. */
  function Execute(cfg: Setup, s: State, acts: seq<Action>): Option<State>
    decreases |acts|
  {
    if acts == [] then Some(s)
    else
      var next := Next(cfg, s, acts[0]);
      if next.None? then None else Execute(cfg, next.value, acts[1..])
  }

  /** The configuration has just been sent; nothing else is in flight. */
  function Initial(cfg: Setup): State {
    State(AwaitConfig, false, Loop, false, Start(cfg), Empty, Empty, One(InitConfig),
          false, false, false, [], 0, 0, false, false, false)
  }

  // ----- the invariant -----

  /** The parent has left its loop. */
  predicate Out(p: ParentPc) {
    p.Exiting? || p == Waiting || p.Returned? || p == Panicked
  }

  predicate InPayload(p: ParentPc) {
    p.AwaitPayload? && TwoPhase(p.req)
  }

  /** Who has the floor, and what is in flight. While init works, the parent leaves its loop only if init is killed. */
  ghost predicate Talk(cfg: Setup, c: ChildPc, killed: bool, p: ParentPc, next: Pos, up: Pipe<Up>, buf: Pipe<Up>,
                       down: Pipe<Down>) {
    match c
    case AwaitConfig =>
      up == Empty && buf == Empty && down == One(InitConfig) && next == Start(cfg) && (p == Loop || (killed && Out(p)))
    case Working(pos) =>
      up == Empty && buf == Empty && down == Empty && pos == next && (p == Loop || (killed && Out(p)))
    case Asked(pos) =>
      pos != AtEnd && buf == Empty &&
      var r := RequestAt(pos);
      (|| (up == One(Ask(r)) && down == Empty && pos == next && p == Loop)
       || (up == Empty && down == Empty && pos == next &&
           (p == Handling(r) || Out(p) || (p == Replying(r) && !TwoPhase(r))))
       || (up == Empty && down == One(FirstReply(r)) && TwoPhase(r) && pos == next &&
           (p == AwaitPayload(r) || (killed && Out(p))))
       || (up == Empty && down == One(FirstReply(r)) && !TwoPhase(r) && After(cfg, pos) == next &&
           (p == Loop || (killed && Out(p)))))
    case Sending(pos) =>
      pos != AtEnd && TwoPhase(RequestAt(pos)) &&
      up == Empty && buf == Empty && down == Empty && pos == next &&
        (p == AwaitPayload(RequestAt(pos)) || (killed && Out(p)))
    case Paid(pos) =>
      pos != AtEnd && TwoPhase(RequestAt(pos)) && buf == Empty &&
      var r := RequestAt(pos);
      (|| (up == One(Payload(r)) && down == Empty && pos == next && p == AwaitPayload(r))
       || (up == Empty && down == Empty && pos == next && (p == Acting(r) || p == Replying(r) || Out(p)))
       || (up == Empty && down == One(FinalReply(r)) && After(cfg, pos) == next && (pos == AtFd ==> cfg.fd) &&
           (p == Loop || (killed && Out(p)))))
    case Failing =>
      up == Empty && buf == Empty && down == Empty && (p == Loop || InPayload(p) || Out(p))
    case Failing2 =>
      buf == Empty && down == Empty &&
      ((up == One(ProcError) && (p == Loop || InPayload(p) || Out(p))) || (up == Empty && (p == ReadError || Out(p))))
    case Exited =>
      down == Empty &&
      (|| (up == Pending(ProcError, One(ErrorPayload)) && buf == Empty && (p == Loop || InPayload(p) || Out(p)))
       || (up == One(ErrorPayload) && buf == Empty && (p == ReadError || Out(p)))
       || (up == Empty && buf == One(ErrorPayload) && p == ReadError)
       || (up == Empty && buf == Empty && Out(p)))
    case Closed =>
      up == Empty && buf == Empty && down == Empty && next == AtEnd && (p == Loop || Out(p))
  }

  predicate PastHooks(pos: Pos) {
    !pos.EarlyOp? && pos != AtHooks
  }

  predicate PastRootfs(pos: Pos) {
    PastHooks(pos) && pos != AtRootfs
  }

  predicate PastReady(pos: Pos) {
    pos == AtFd || pos == AtEnd
  }

  function AfterHooks(cfg: Setup): seq<Event> {
    [] + Effects(cfg, Hooks)
  }

  function AfterRootfs(cfg: Setup): seq<Event> {
    AfterHooks(cfg) + Effects(cfg, RootfsReady)
  }

  function AfterReady(cfg: Setup): seq<Event> {
    AfterRootfs(cfg) + Effects(cfg, Ready) + [RunSent]
  }

  function AfterFd(cfg: Setup): seq<Event> {
    if cfg.fd then AfterReady(cfg) + Effects(cfg, SeccompFd) else AfterReady(cfg)
  }

  /** Everything the parent has done by the time it is to serve `pos`. */
  function EventsBefore(cfg: Setup, pos: Pos): seq<Event> {
    match pos
    case EarlyOp(_) | AtHooks => []
    case AtRootfs => AfterHooks(cfg)
    case LateOp(_) | AtReady => AfterRootfs(cfg)
    case AtFd => AfterReady(cfg)
    case AtEnd => AfterFd(cfg)
  }

  /** The log between two requests. */
  ghost predicate Before(cfg: Setup, next: Pos, reg: bool, events: seq<Event>) {
    events == EventsBefore(cfg, next) && reg == (cfg.fsEnabled && PastRootfs(next))
  }

  /** The log once the handler of the request at `next` has done its work. */
  ghost predicate Within(cfg: Setup, next: Pos, reg: bool, events: seq<Event>) {
    && next != AtEnd
    && (if RequestAt(next) == Op then events == EventsBefore(cfg, next)
        else events == EventsBefore(cfg, next) + Effects(cfg, RequestAt(next)))
    && reg == (cfg.fsEnabled && (PastRootfs(next) || next == AtRootfs))
  }

  /** The parent's flags and log follow the place in the script. */
  ghost predicate Record(cfg: Setup, p: ParentPc, next: Pos, sentRun: bool, sentResume: bool, reg: bool,
                         events: seq<Event>) {
    && sentRun == PastReady(next)
    && sentResume == PastHooks(next)
    && (reg ==> cfg.fsEnabled && cfg.preReg)
    && (if p.Replying? then Within(cfg, next, reg, events) && p.req == RequestAt(next)
        else if p == Exiting(true) || p == Waiting || p == Returned(false) then
          Before(cfg, next, reg, events) || Within(cfg, next, reg, events)
        else Before(cfg, next, reg, events))
    && (next == AtFd ==> cfg.fd)
  }

  /** How each way out came about. */
  ghost predicate WaysOut(cfg: Setup, c: ChildPc, killed: bool, p: ParentPc, shut: bool, next: Pos, killedMid: bool) {
    && (p == Exiting(false) || p == Returned(true) ==> c == Closed || killed)
    && (p == Exiting(true) || p == Waiting ==> c != Closed)
    && (p == Waiting || p == Returned(true) ==> PastReady(next))
    && (p == Returned(false) ==> killed || c == Exited)
    && (p == Panicked ==> killedMid)
    && (killedMid ==> killed && c == Failing2)
    && (killed && c == Failing2 && p != Returned(false) ==> killedMid)
    && (shut <==> p == Waiting || p.Returned?)
  }

  /** Messages thrown away: never a reply, and only the text of an error that is already being reported. */
  ghost predicate Losses(c: ChildPc, p: ParentPc, lostUp: nat, lostDown: nat, mismatch: bool) {
    lostDown == 0 && !mismatch && (lostUp > 0 ==> lostUp == 1 && c == Exited && Out(p))
  }

  /** Without faults, nobody fails. */
  ghost predicate Quiet(cfg: Setup, c: ChildPc, killed: bool, p: ParentPc, faulted: bool) {
    && (!faulted && killed ==> p == Returned(false))
    && (!faulted && (cfg.fsEnabled ==> cfg.preReg) ==>
      && !killed && c != Failing && c != Failing2 && c != Exited
      && p != Exiting(true) && p != Waiting && p != Returned(false) && p != Panicked && p != ReadError)
  }

  ghost predicate Inv(cfg: Setup, s: State) {
    && Talk(cfg, s.c, s.killed, s.p, s.next, s.up, s.buf, s.down)
    && Record(cfg, s.p, s.next, s.sentRun, s.sentResume, s.reg, s.events)
    && WaysOut(cfg, s.c, s.killed, s.p, s.shut, s.next, s.killedMid)
    && Losses(s.c, s.p, s.lostUp, s.lostDown, s.mismatch)
    && Quiet(cfg, s.c, s.killed, s.p, s.faulted)
  }

  lemma InitialInv(cfg: Setup)
    ensures Inv(cfg, Initial(cfg))
  {
  }

  // ----- progress -----

  function PosLeft(cfg: Setup, pos: Pos): nat {
    match pos
    case EarlyOp(left) => left + cfg.late + 5
    case AtHooks => cfg.late + 4
    case AtRootfs => cfg.late + 3
    case LateOp(left) => left + 3
    case AtReady => 2
    case AtFd => 1
    case AtEnd => 0
  }

  function ChildLeft(cfg: Setup, c: ChildPc): nat {
    match c
    case AwaitConfig => 30 * PosLeft(cfg, Start(cfg)) + 27
    case Working(pos) => 30 * PosLeft(cfg, pos) + 26
    case Asked(pos) => 30 * PosLeft(cfg, pos) + 20
    case Sending(pos) => 30 * PosLeft(cfg, pos) + 19
    case Paid(pos) => 30 * PosLeft(cfg, pos) + 13
    case Failing => 12
    case Failing2 => 6
    case Exited | Closed => 0
  }

  function ParentLeft(p: ParentPc): nat {
    match p
    case Loop => 4
    case Handling(_) => 8
    case AwaitPayload(_) => 6
    case Acting(_) => 8
    case Replying(_) => 7
    case ReadError => 8
    case Exiting(_) => 3
    case Waiting => 2
    case Returned(_) | Panicked => 0
  }

  /** What is left to do; a message on its way up is worth five steps, one on its way down one. */
  function Left(cfg: Setup, s: State): nat {
    (if s.killed then 0 else ChildLeft(cfg, s.c)) + ParentLeft(s.p) +
    5 * Length(s.up) + 5 * Length(s.buf) + Length(s.down)
  }

  lemma AfterLeavesLess(cfg: Setup, pos: Pos)
    ensures pos != AtEnd ==> PosLeft(cfg, After(cfg, pos)) < PosLeft(cfg, pos)
  {
  }

  /** One step of a side is done, and no fault has happened. */
  predicate StepsDown(cfg: Setup, s: State, s': State) {
    Onward(cfg, s, s') && s'.faulted == s.faulted
  }

  /** There is less to do; init stays killed if it was, and is killed only by a parent that returns an error. */
  predicate Onward(cfg: Setup, s: State, s': State) {
    Left(cfg, s') < Left(cfg, s) && (s.killed ==> s'.killed) && (s'.killed ==> s.killed || s'.p == Returned(false))
  }

  /** The parent moves on without a word. */
  lemma ParentMovesLess(cfg: Setup, s: State, to: ParentPc, shut: bool, faulted: bool)
    requires ParentLeft(to) < ParentLeft(s.p)
    ensures StepsDown(cfg, s, s.(p := to))
    ensures StepsDown(cfg, s, s.(p := to, shut := shut))
    ensures Onward(cfg, s, s.(p := to, faulted := faulted))
  {
    hide ChildLeft, ParentLeft, Length;
  }

  lemma FailLess(cfg: Setup, s: State, faulted: bool)
    requires s.p.Exiting? || s.p == Waiting
    ensures StepsDown(cfg, s, s.Fail())
    ensures Onward(cfg, s, s.Fail().(faulted := faulted))
  {
    hide ChildLeft, Length;
  }

  /** The parent writes one message, and that costs it at least two of its own steps. */
  lemma ParentSpeaksLess(cfg: Setup, s: State)
    requires s.p.Handling? || s.p.Replying?
    ensures s.p.Handling? ==>
            StepsDown(cfg, s, s.(p := AwaitPayload(s.p.req), down := Write(s.down, FirstReply(s.p.req))))
    ensures StepsDown(cfg, s, Reply(cfg, s, s.p.req))
  {
    hide ChildLeft, Length, Write, FirstReply, FinalReply, After;
  }

  lemma EffectsLess(cfg: Setup, s: State)
    requires s.p.Handling? || s.p.Acting?
    ensures StepsDown(cfg, s, DoEffects(cfg, s, s.p.req))
  {
    hide ChildLeft, Length, Effects, Refuses;
    if Refuses(cfg, s, s.p.req) {
      ParentMovesLess(cfg, s, Exiting(true), false, false);
    } else {
      assert ParentLeft(Replying(s.p.req)) < ParentLeft(s.p);
    }
  }

  lemma ParentLeavesLess(cfg: Setup, s: State)
    requires ParentStep(cfg, s).Some?
    ensures StepsDown(cfg, s, ParentStep(cfg, s).value)
  {
    hide StepsDown, DoEffects, Reply, Write, FirstReply, TwoPhase;
    match s.p
    case Loop => ParentMovesLess(cfg, s, Exiting(s.down.Pending?), false, false);
    case AwaitPayload(_) => ParentMovesLess(cfg, s, Exiting(true), false, false);
    case ReadError => ParentMovesLess(cfg, s, if s.down.Pending? then Exiting(true) else Panicked, false, false);
    case Handling(_) =>
      ParentMovesLess(cfg, s, Exiting(true), false, false);
      ParentSpeaksLess(cfg, s);
      EffectsLess(cfg, s);
    case Acting(_) => EffectsLess(cfg, s);
    case Replying(_) =>
      ParentMovesLess(cfg, s, Exiting(true), false, false);
      ParentSpeaksLess(cfg, s);
    case Exiting(failed) =>
      FailLess(cfg, s, false);
      ParentMovesLess(cfg, s, if failed then Waiting else Returned(true), true, false);
    case Waiting => FailLess(cfg, s, false);
    case _ =>
  }

  /** Init moves on without a word. */
  lemma ChildMovesLess(cfg: Setup, s: State, to: ChildPc)
    requires !s.killed && ChildLeft(cfg, to) < ChildLeft(cfg, s.c)
    ensures StepsDown(cfg, s, s.(c := to))
    ensures Onward(cfg, s, s.(c := to, faulted := true))
  {
    hide ChildLeft, ParentLeft, Length;
  }

  /** Init writes one message, which is worth five steps. */
  lemma ChildSpeaksLess(cfg: Setup, s: State, to: ChildPc, msg: Up)
    requires !s.killed && ChildLeft(cfg, to) + 5 < ChildLeft(cfg, s.c)
    ensures StepsDown(cfg, s, s.(c := to, up := Write(s.up, msg)))
  {
    hide ChildLeft, ParentLeft, Length, Write;
  }

  lemma ChildLeavesLess(cfg: Setup, s: State)
    requires !s.ChildClosed() && ChildStep(cfg, s).Some?
    ensures StepsDown(cfg, s, ChildStep(cfg, s).value)
  {
    hide StepsDown, Write, PosLeft, RequestAt, Exchanged;
    match s.c
    case Working(pos) =>
      if pos == AtEnd {
        ChildMovesLess(cfg, s, Closed);
      } else if s.ParentGone() {
        ChildMovesLess(cfg, s, Exited);
      } else {
        ChildSpeaksLess(cfg, s, Asked(pos), Ask(RequestAt(pos)));
      }
    case Sending(pos) =>
      if s.ParentGone() {
        ChildMovesLess(cfg, s, Exited);
      } else {
        ChildSpeaksLess(cfg, s, Paid(pos), Exchanged(RequestAt(pos)).payload);
      }
    case Failing =>
      if s.ParentGone() {
        ChildMovesLess(cfg, s, Exited);
      } else {
        ChildSpeaksLess(cfg, s, Failing2, ProcError);
      }
    case Failing2 =>
      if s.ParentGone() {
        ChildMovesLess(cfg, s, Exited);
      } else {
        ChildSpeaksLess(cfg, s, Exited, ErrorPayload);
      }
    case AwaitConfig | Asked(_) | Paid(_) =>
      ChildMovesLess(cfg, s, Failing);
    case _ =>
  }

  lemma ChildReadsLeaveLess(cfg: Setup, s: State, extra: nat)
    requires !s.ChildClosed() && ChildReads(cfg, s, extra).Some?
    ensures StepsDown(cfg, s, ChildReads(cfg, s, extra).value)
  {
    hide PosLeft, Length, After;
    SkipAndTaken(s.down, extra + 1);
    match s.c
    case Asked(pos) => AfterLeavesLess(cfg, pos);
    case Paid(pos) => AfterLeavesLess(cfg, pos);
    case _ =>
  }

  lemma OnDecodedCost(p: ParentPc, msg: Up)
    requires p == Loop || p == ReadError || p.AwaitPayload?
    ensures ParentLeft(OnDecoded(p, msg)) <= ParentLeft(p) + 4
  {
  }

  lemma ParentReadsLeaveLess(cfg: Setup, s: State, extra: nat)
    requires ParentReads(cfg, s, extra).Some?
    ensures StepsDown(cfg, s, ParentReads(cfg, s, extra).value)
  {
    hide OnDecoded, ParentLeft, ChildLeft;
    if s.p.AwaitPayload? {
      SkipAndTaken(s.up, extra + 1);
      OnDecodedCost(s.p, s.up.head);
    } else if s.buf.Pending? {
      OnDecodedCost(s.p, s.buf.head);
    } else {
      SkipAndTaken(s.up, extra + 1);
      SkipAndTaken(s.up.rest, extra);
      OnDecodedCost(s.p, s.up.head);
    }
  }

  lemma KillLess(cfg: Setup, s: State)
    requires !s.ChildClosed()
    ensures Left(cfg, s.(killed := true, killedMid := s.killedMid || s.c == Failing2, faulted := true)) < Left(cfg, s)
  {
    hide PosLeft, ParentLeft, Length;
  }

  lemma FaultLeavesLess(cfg: Setup, s: State, act: Action)
    requires IsFault(act) && Next(cfg, s, act).Some?
    ensures Left(cfg, Next(cfg, s, act).value) < Left(cfg, s)
    ensures act != ChildKilled ==> Onward(cfg, s, Next(cfg, s, act).value)
  {
    hide Left, ParentStep, ParentReads, ChildStep, ChildReads;
    match act
    case HandlerFails =>
      if s.p.Exiting? {
        FailLess(cfg, s, true);
      } else {
        ParentMovesLess(cfg, s, Exiting(true), false, true);
      }
    case ChildFails =>
      ChildMovesLess(cfg, s, Failing);
    case ChildKilled =>
      KillLess(cfg, s);
    case _ =>
  }

  /** From any state, every action leaves strictly less to do. */
  lemma NextLeavesLess(cfg: Setup, s: State, act: Action)
    requires Next(cfg, s, act).Some?
    ensures Left(cfg, Next(cfg, s, act).value) < Left(cfg, s)
    ensures act != ChildKilled ==> Onward(cfg, s, Next(cfg, s, act).value)
    ensures !IsFault(act) ==> Next(cfg, s, act).value.faulted == s.faulted
  {
    hide Left, ParentStep, ParentReads, ChildStep, ChildReads, HandlerFailure;
    match act
    case Parent => ParentLeavesLess(cfg, s);
    case ParentRead(extra) => ParentReadsLeaveLess(cfg, s, extra);
    case Child => ChildLeavesLess(cfg, s);
    case ChildRead(extra) => ChildReadsLeaveLess(cfg, s, extra);
    case HandlerFails | ChildFails | ChildKilled => FaultLeavesLess(cfg, s, act);
  }

  // ----- every action keeps the invariant -----

  /** While init's end is open the parent is still there to read. */
  lemma ParentStays(cfg: Setup, s: State)
    requires Inv(cfg, s) && !s.ChildClosed()
    ensures !s.ParentGone()
  {
    hide Talk, Record, Losses, Quiet;
  }

  lemma CloseKeeps(cfg: Setup, s: State)
    requires Inv(cfg, s) && !s.killed && s.c == Working(AtEnd)
    ensures Inv(cfg, s.(c := Closed))
  {
    hide Record;
  }

  lemma AskKeeps(cfg: Setup, s: State, pos: Pos)
    requires Inv(cfg, s) && !s.killed && s.c == Working(pos) && pos != AtEnd
    ensures Inv(cfg, s.(c := Asked(pos), up := Write(s.up, Ask(RequestAt(pos)))))
  {
    hide Record, RequestAt, After;
  }

  lemma PayKeeps(cfg: Setup, s: State, pos: Pos)
    requires Inv(cfg, s) && !s.killed && s.c == Sending(pos) && pos != AtEnd && TwoPhase(RequestAt(pos))
    ensures Inv(cfg, s.(c := Paid(pos), up := Write(s.up, Payload(RequestAt(pos)))))
  {
    hide Record, RequestAt, After;
  }

  lemma ReportKeeps(cfg: Setup, s: State)
    requires Inv(cfg, s) && !s.killed
    ensures s.c == Failing ==> Inv(cfg, s.(c := Failing2, up := Write(s.up, ProcError)))
    ensures s.c == Failing2 ==> Inv(cfg, s.(c := Exited, up := Write(s.up, ErrorPayload)))
  {
    hide Record, RequestAt, After;
  }

  /** Init meets end of file while it waits: the parent has shut its side after a failed handler. */
  lemma EofKeeps(cfg: Setup, s: State)
    requires Inv(cfg, s) && !s.killed && (s.c == AwaitConfig || s.c.Asked? || s.c.Paid?) && s.down == Empty && s.shut
    ensures Inv(cfg, s.(c := Failing))
  {
    hide Record, RequestAt, After;
  }

  lemma ChildKeeps(cfg: Setup, s: State, s': State)
    requires Inv(cfg, s) && !s.ChildClosed() && ChildStep(cfg, s) == Some(s')
    ensures Inv(cfg, s')
  {
    hide Inv;
    ParentStays(cfg, s);
    match s.c
    case Working(pos) =>
      if pos == AtEnd {
        CloseKeeps(cfg, s);
      } else {
        AskKeeps(cfg, s, pos);
      }
    case Sending(pos) =>
      SidesAgree(RequestAt(pos));
      PayKeeps(cfg, s, pos);
    case Failing | Failing2 =>
      ReportKeeps(cfg, s);
    case AwaitConfig | Asked(_) | Paid(_) =>
      EofKeeps(cfg, s);
    case _ =>
  }

  /** At most one reply is in flight, and it is the one init expects. */
  lemma ReplyIsExpected(cfg: Setup, s: State)
    requires Inv(cfg, s) && !s.killed && s.down.Pending? && (s.c == AwaitConfig || s.c.Asked? || s.c.Paid?)
    ensures s.down.rest == Empty && OnMessage(cfg, s.c, s.down.head).Some?
  {
    hide Record, WaysOut, Quiet;
  }

  lemma ReadKeeps(cfg: Setup, s: State)
    requires Inv(cfg, s) && !s.killed && s.down.Pending? && s.down.rest == Empty
    requires s.c == AwaitConfig || s.c.Asked? || s.c.Paid?
    requires OnMessage(cfg, s.c, s.down.head).Some?
    ensures Inv(cfg, s.(c := OnMessage(cfg, s.c, s.down.head).value, down := Empty))
  {
    hide Record, After;
    var s' := s.(c := OnMessage(cfg, s.c, s.down.head).value, down := Empty);
    match s.c
    case AwaitConfig =>
      assert Inv(cfg, s');
    case Asked(pos) =>
      assert Inv(cfg, s');
    case Paid(pos) =>
      assert Inv(cfg, s');
    case _ =>
  }

  lemma ChildReadsKeeps(cfg: Setup, s: State, extra: nat, s': State)
    requires Inv(cfg, s) && !s.ChildClosed() && ChildReads(cfg, s, extra) == Some(s')
    ensures Inv(cfg, s')
  {
    hide Inv, OnMessage;
    ReplyIsExpected(cfg, s);
    SkipAndTaken(s.down, 1);
    ReadKeeps(cfg, s);
    assert extra == 0 && Skip(s.down, 1) == Empty;
  }

  /** What the parent's loop can find: the request that init is waiting on, or the report of an error. */
  lemma LoopFinds(cfg: Setup, s: State)
    requires Inv(cfg, s) && s.p == Loop
    ensures s.buf == Empty
    ensures s.up.Pending? ==>
              || (s.c.Asked? && s.c.pos != AtEnd && s.up == One(Ask(RequestAt(s.c.pos))))
              || (s.c == Failing2 && s.up == One(ProcError))
              || (s.c == Exited && s.up == Pending(ProcError, One(ErrorPayload)))
  {
    hide Record, WaysOut, Quiet, Losses, RequestAt, After;
  }

  lemma HearsRequest(cfg: Setup, s: State)
    requires Inv(cfg, s) && s.p == Loop && s.c.Asked? && s.c.pos != AtEnd && s.up == One(Ask(RequestAt(s.c.pos)))
    ensures Inv(cfg, s.(p := Handling(RequestAt(s.c.pos)), up := Empty))
  {
    hide RequestAt, After, EventsBefore;
  }

  lemma HearsError(cfg: Setup, s: State)
    requires Inv(cfg, s) && s.p == Loop
    ensures s.c == Failing2 && s.up == One(ProcError) ==> Inv(cfg, s.(p := ReadError, up := Empty))
    ensures s.c == Exited && s.up == Pending(ProcError, One(ErrorPayload)) ==>
              && Inv(cfg, s.(p := ReadError, up := One(ErrorPayload)))
              && Inv(cfg, s.(p := ReadError, up := Empty, buf := One(ErrorPayload)))
  {
    hide RequestAt, After, EventsBefore;
  }

  lemma LoopReadsKeeps(cfg: Setup, s: State, extra: nat, s': State)
    requires Inv(cfg, s) && s.p == Loop && ParentReads(cfg, s, extra) == Some(s')
    ensures Inv(cfg, s')
  {
    hide Inv;
    LoopFinds(cfg, s);
    if s.c.Asked? {
      assert extra == 0 && OnDecoded(s.p, s.up.head) == Handling(RequestAt(s.c.pos)) && Skip(s.up, 1) == Empty;
      HearsRequest(cfg, s);
    } else if extra == 0 {
      assert OnDecoded(s.p, s.up.head) == ReadError && Skip(s.up, 1) == s.up.rest;
      HearsError(cfg, s);
    } else {
      assert extra == 1 && OnDecoded(s.p, s.up.head) == ReadError;
      assert Skip(s.up, 2) == Empty && Taken(s.up.rest, 1) == One(ErrorPayload);
      HearsError(cfg, s);
    }
  }

  lemma ErrorFinds(cfg: Setup, s: State)
    requires Inv(cfg, s) && s.p == ReadError
    ensures (s.up == Empty && s.buf == Empty) || (s.up == One(ErrorPayload) && s.buf == Empty) ||
            (s.up == Empty && s.buf == One(ErrorPayload))
    ensures s.up.Pending? || s.buf.Pending? ==> Inv(cfg, s.(p := Exiting(true), up := Empty, buf := Empty))
  {
    hide RequestAt, After, EventsBefore;
  }

  lemma ErrorReadsKeeps(cfg: Setup, s: State, extra: nat, s': State)
    requires Inv(cfg, s) && s.p == ReadError && ParentReads(cfg, s, extra) == Some(s')
    ensures Inv(cfg, s')
  {
    hide Inv;
    ErrorFinds(cfg, s);
    assert extra == 0;
    if s.buf == Empty {
      assert OnDecoded(s.p, s.up.head) == Exiting(true) && Skip(s.up, 1) == Empty && Taken(s.up.rest, 0) == Empty;
    } else {
      assert OnDecoded(s.p, s.buf.head) == Exiting(true);
    }
  }

  lemma PayloadFinds(cfg: Setup, s: State)
    requires Inv(cfg, s) && s.p.AwaitPayload?
    ensures TwoPhase(s.p.req)
    ensures s.up.Pending? ==>
              || s.up == One(Payload(s.p.req))
              || s.up == One(ProcError)
              || (s.c == Exited && s.up == Pending(ProcError, One(ErrorPayload)))
  {
    hide Record, WaysOut, Quiet, Losses, After;
  }

  lemma HearsPayload(cfg: Setup, s: State)
    requires Inv(cfg, s) && s.p.AwaitPayload? && TwoPhase(s.p.req) && s.up == One(Payload(s.p.req))
    ensures Inv(cfg, s.(p := Acting(s.p.req), up := Empty))
  {
    hide After, EventsBefore;
  }

  lemma HearsErrorInstead(cfg: Setup, s: State)
    requires Inv(cfg, s) && s.p.AwaitPayload?
    ensures s.up == One(ProcError) ==> Inv(cfg, s.(p := Exiting(true), up := Empty))
    ensures s.c == Exited && s.up == Pending(ProcError, One(ErrorPayload)) ==>
              && Inv(cfg, s.(p := Exiting(true), up := One(ErrorPayload)))
              && Inv(cfg, s.(p := Exiting(true), up := Empty, lostUp := s.lostUp + 1))
  {
    hide RequestAt, After, EventsBefore;
  }

  lemma PayloadReadsKeeps(cfg: Setup, s: State, extra: nat, s': State)
    requires Inv(cfg, s) && s.p.AwaitPayload? && ParentReads(cfg, s, extra) == Some(s')
    ensures Inv(cfg, s')
  {
    hide Inv;
    PayloadFinds(cfg, s);
    if s.up == One(Payload(s.p.req)) {
      assert extra == 0 && OnDecoded(s.p, s.up.head) == Acting(s.p.req) && Skip(s.up, 1) == Empty;
      HearsPayload(cfg, s);
    } else if extra == 0 {
      assert OnDecoded(s.p, s.up.head) == Exiting(true) && Skip(s.up, 1) == s.up.rest;
      HearsErrorInstead(cfg, s);
    } else {
      assert extra == 1 && OnDecoded(s.p, s.up.head) == Exiting(true) && Skip(s.up, 2) == Empty;
      HearsErrorInstead(cfg, s);
    }
  }

  /** A served request is the one at `next`, and init is waiting for its outcome. */
  lemma Serving(cfg: Setup, s: State)
    requires Inv(cfg, s) && (s.p.Handling? || s.p.Acting? || s.p.Replying?)
    ensures s.next != AtEnd && s.p.req == RequestAt(s.next) && s.up == Empty && s.buf == Empty && s.down == Empty
    ensures if s.p.Handling? then s.c == Asked(s.next)
            else if TwoPhase(s.p.req) then s.c == Paid(s.next)
            else s.p.Replying? && s.c == Asked(s.next)
  {
    hide Record, WaysOut, Quiet, Losses, After;
  }

  /** A handler that fails makes the parent leave its loop. */
  lemma HandlerExitKeeps(cfg: Setup, s: State, faulted: bool)
    requires Inv(cfg, s) && (s.p.Handling? || s.p.Acting? || s.p.Replying?)
    requires faulted || s.faulted || s.killed || (!s.p.Replying? && Refuses(cfg, s, s.p.req))
    ensures Inv(cfg, s.(p := Exiting(true), faulted := faulted || s.faulted))
  {
    hide After, EventsBefore, Effects;
    Serving(cfg, s);
  }

  lemma GoAheadKeeps(cfg: Setup, s: State)
    requires Inv(cfg, s) && s.p.Handling? && TwoPhase(s.p.req) && !s.ChildClosed()
    ensures Inv(cfg, s.(p := AwaitPayload(s.p.req), down := Write(s.down, FirstReply(s.p.req))))
  {
    hide After, EventsBefore, Effects;
    Serving(cfg, s);
  }

  lemma EffectsKeep(cfg: Setup, s: State)
    requires Inv(cfg, s) && (s.p.Acting? || (s.p.Handling? && !TwoPhase(s.p.req))) && !Refuses(cfg, s, s.p.req)
    ensures Inv(cfg, DoEffects(cfg, s, s.p.req))
  {
    hide After, EventsBefore;
    Serving(cfg, s);
    assert s.p.req == Op ==> s.events + Effects(cfg, s.p.req) == s.events;
  }

  /** Replying moves the parent's record from one place of the script to the next. */
  lemma RecordAfter(cfg: Setup, next: Pos)
    requires next != AtEnd && (next == AtFd ==> cfg.fd)
    ensures var after := After(cfg, next);
            && PastReady(after) == (PastReady(next) || RequestAt(next) == Ready)
            && PastHooks(after) == (PastHooks(next) || RequestAt(next) == Hooks)
            && PastRootfs(after) == (PastRootfs(next) || next == AtRootfs)
            && (after == AtFd ==> cfg.fd)
            && EventsBefore(cfg, after) ==
               if RequestAt(next) == Op then EventsBefore(cfg, next)
               else if RequestAt(next) == Ready then EventsBefore(cfg, next) + Effects(cfg, Ready) + [RunSent]
               else EventsBefore(cfg, next) + Effects(cfg, RequestAt(next))
  {
    hide Effects;
    match next
    case AtHooks =>
      assert EventsBefore(cfg, next) == [];
    case _ =>
  }

  lemma ReplyKeeps(cfg: Setup, s: State)
    requires Inv(cfg, s) && s.p.Replying? && !s.ChildClosed()
    ensures Inv(cfg, Reply(cfg, s, s.p.req))
  {
    hide EventsBefore, After, Effects, PastReady, PastHooks, PastRootfs;
    Serving(cfg, s);
    RecordAfter(cfg, s.next);
  }

  lemma ServingKeeps(cfg: Setup, s: State, s': State)
    requires Inv(cfg, s) && (s.p.Handling? || s.p.Acting? || s.p.Replying?) && ParentStep(cfg, s) == Some(s')
    ensures Inv(cfg, s')
  {
    hide Inv;
    Serving(cfg, s);
    var req := s.p.req;
    if s.p.Replying? {
      if s.ChildClosed() { HandlerExitKeeps(cfg, s, false); } else { ReplyKeeps(cfg, s); }
    } else if s.p.Handling? && TwoPhase(req) {
      if s.ChildClosed() { HandlerExitKeeps(cfg, s, false); } else { GoAheadKeeps(cfg, s); }
    } else if Refuses(cfg, s, req) {
      HandlerExitKeeps(cfg, s, false);
    } else {
      EffectsKeep(cfg, s);
    }
  }

  lemma LoopEndsKeeps(cfg: Setup, s: State)
    requires Inv(cfg, s) && s.p == Loop && s.up == Empty && s.buf == Empty && s.ChildClosed()
    ensures Inv(cfg, s.(p := Exiting(s.down.Pending?)))
  {
    hide RequestAt, After, EventsBefore;
  }

  lemma PayloadEofKeeps(cfg: Setup, s: State)
    requires Inv(cfg, s) && s.p.AwaitPayload? && s.up == Empty && s.ChildClosed()
    ensures Inv(cfg, s.(p := Exiting(true)))
  {
    hide RequestAt, After, EventsBefore;
  }

  lemma PanicKeeps(cfg: Setup, s: State)
    requires Inv(cfg, s) && s.p == ReadError && s.up == Empty && s.buf == Empty && s.ChildClosed()
    ensures s.down == Empty && Inv(cfg, s.(p := Panicked))
  {
    hide RequestAt, After, EventsBefore;
  }

  lemma FailKeeps(cfg: Setup, s: State, faulted: bool)
    requires Inv(cfg, s) && (s.p.Exiting? || s.p == Waiting)
    requires s.p == Waiting ==> s.killed || s.c == Exited
    requires faulted || !s.sentRun || s.p == Waiting
    ensures Inv(cfg, s.Fail().(faulted := faulted || s.faulted))
  {
    hide RequestAt, After, EventsBefore;
  }

  lemma ShutdownKeeps(cfg: Setup, s: State)
    requires Inv(cfg, s) && s.p.Exiting? && s.sentRun
    ensures Inv(cfg, s.(p := if s.p.failed then Waiting else Returned(true), shut := true))
  {
    hide RequestAt, After, EventsBefore;
  }

  /** The order of the script makes the second test on leaving redundant. */
  lemma RunImpliesResume(cfg: Setup, s: State)
    requires Inv(cfg, s) && s.sentRun
    ensures s.sentResume
  {
    hide Talk, WaysOut, Quiet, Losses;
  }

  lemma LeavingKeeps(cfg: Setup, s: State, s': State)
    requires Inv(cfg, s) && ParentStep(cfg, s) == Some(s')
    requires s.p == Loop || s.p.AwaitPayload? || s.p == ReadError || s.p.Exiting? || s.p == Waiting
    ensures Inv(cfg, s')
  {
    hide Inv;
    match s.p
    case Loop =>
      LoopEndsKeeps(cfg, s);
    case AwaitPayload(_) =>
      PayloadEofKeeps(cfg, s);
    case ReadError =>
      PanicKeeps(cfg, s);
    case Exiting(failed) =>
      if s.sentRun {
        RunImpliesResume(cfg, s);
        ShutdownKeeps(cfg, s);
      } else {
        FailKeeps(cfg, s, false);
      }
    case Waiting =>
      FailKeeps(cfg, s, false);
    case _ =>
  }

  lemma ChildFailsKeeps(cfg: Setup, s: State)
    requires Inv(cfg, s) && !s.ChildClosed() && (s.c.Working? || s.c.Sending?)
    ensures Inv(cfg, s.(c := Failing, faulted := true))
  {
    hide After, EventsBefore, Record;
  }

  lemma KillKeeps(cfg: Setup, s: State)
    requires Inv(cfg, s) && !s.ChildClosed()
    ensures Inv(cfg, s.(killed := true, killedMid := s.killedMid || s.c == Failing2, faulted := true))
  {
    hide RequestAt, After, EventsBefore, Record;
  }

  lemma FaultKeeps(cfg: Setup, s: State, act: Action, s': State)
    requires Inv(cfg, s) && IsFault(act) && Next(cfg, s, act) == Some(s')
    ensures Inv(cfg, s')
  {
    hide Inv, ParentStep, ParentReads, ChildStep, ChildReads;
    match act
    case HandlerFails =>
      if s.p.Exiting? {
        FailKeeps(cfg, s, true);
      } else {
        HandlerExitKeeps(cfg, s, true);
      }
    case ChildFails =>
      ChildFailsKeeps(cfg, s);
    case ChildKilled =>
      KillKeeps(cfg, s);
    case _ =>
  }

  /** Every action keeps the invariant. */
  lemma NextKeeps(cfg: Setup, s: State, act: Action)
    requires Inv(cfg, s) && Next(cfg, s, act).Some?
    ensures Inv(cfg, Next(cfg, s, act).value)
  {
    hide Inv, ParentStep, ParentReads, ChildStep, ChildReads, HandlerFailure;
    var s' := Next(cfg, s, act).value;
    match act
    case Parent =>
      ParentActs(cfg, s, s');
      if s.p.Handling? || s.p.Acting? || s.p.Replying? {
        ServingKeeps(cfg, s, s');
      } else {
        LeavingKeeps(cfg, s, s');
      }
    case ParentRead(extra) =>
      ParentListens(cfg, s, extra);
      if s.p == Loop {
        LoopReadsKeeps(cfg, s, extra, s');
      } else if s.p == ReadError {
        ErrorReadsKeeps(cfg, s, extra, s');
      } else {
        PayloadReadsKeeps(cfg, s, extra, s');
      }
    case Child => ChildKeeps(cfg, s, s');
    case ChildRead(extra) => ChildReadsKeeps(cfg, s, extra, s');
    case HandlerFails | ChildFails | ChildKilled => FaultKeeps(cfg, s, act, s');
  }

  lemma ParentActs(cfg: Setup, s: State, s': State)
    requires ParentStep(cfg, s) == Some(s')
    ensures !s.p.Returned? && s.p != Panicked
  {
  }

  lemma ParentListens(cfg: Setup, s: State, extra: nat)
    requires ParentReads(cfg, s, extra).Some?
    ensures s.p == Loop || s.p == ReadError || s.p.AwaitPayload?
  {
  }

  // ----- whole runs -----

  /** Every state of every run satisfies the invariant, and a run costs at least one unit of what is left per step. */
  lemma {:induction false} ExecuteKeeps(cfg: Setup, s: State, acts: seq<Action>)
    requires Inv(cfg, s) && Execute(cfg, s, acts).Some?
    ensures Inv(cfg, Execute(cfg, s, acts).value)
    ensures |acts| + Left(cfg, Execute(cfg, s, acts).value) <= Left(cfg, s)
    decreases |acts|
  {
    hide Inv, Left, Next;
    if acts != [] {
      NextKeeps(cfg, s, acts[0]);
      NextLeavesLess(cfg, s, acts[0]);
      ExecuteKeeps(cfg, Next(cfg, s, acts[0]).value, acts[1..]);
    }
  }

  /** A start-up takes at most a number of steps that is linear in the number of operations init requests. */
  lemma RunIsBounded(cfg: Setup, acts: seq<Action>)
    requires Execute(cfg, Initial(cfg), acts).Some?
    ensures |acts| <= 30 * (cfg.early + cfg.late) + 152
  {
    hide Inv, Execute;
    InitialInv(cfg);
    ExecuteKeeps(cfg, Initial(cfg), acts);
    assert Left(cfg, Initial(cfg)) == 30 * (cfg.early + cfg.late) + 152;
  }

  /** A state that some run reaches from the start. */
  ghost predicate Reachable(cfg: Setup, s: State) {
    exists acts :: Execute(cfg, Initial(cfg), acts) == Some(s)
  }

  lemma ReachableInv(cfg: Setup, s: State)
    requires Reachable(cfg, s)
    ensures Inv(cfg, s)
  {
    hide Inv, Execute;
    var acts :| Execute(cfg, Initial(cfg), acts) == Some(s);
    InitialInv(cfg);
    ExecuteKeeps(cfg, Initial(cfg), acts);
  }

  /** The two sides talk in turn: one message is in flight at most, except an error report and its text. */
  lemma OneMessageInFlight(cfg: Setup, s: State)
    requires Reachable(cfg, s)
    ensures Length(s.up) + Length(s.buf) + Length(s.down) <= 1 ||
            (s.up == Pending(ProcError, One(ErrorPayload)) && s.buf == Empty && s.down == Empty)
  {
    hide Reachable, Record, WaysOut, Quiet, Losses, RequestAt, After;
    ReachableInv(cfg, s);
  }

  /**
   * Although replies are read with decoders that may throw messages away, no reply is ever lost or met out of
   * place. The one message that can be lost is the text of init's own error, after the parent has already given
   * up on it.
   */
  lemma NothingIsLost(cfg: Setup, s: State)
    requires Reachable(cfg, s)
    ensures s.lostDown == 0 && !s.mismatch
    ensures s.lostUp > 0 ==> s.lostUp == 1 && s.c == Exited && Out(s.p)
  {
    hide Reachable, Record, WaysOut, Quiet, Talk;
    ReachableInv(cfg, s);
  }

  /** Everything the parent does in a start-up, in order. */
  function Script(cfg: Setup): seq<Event> {
    (if cfg.hooks then [HooksRun] else []) +
    (if cfg.fsEnabled then [Registered] else []) +
    (if cfg.hooks && !cfg.newns then [HooksRun] else []) +
    [StateSaved, RunSent] +
    (if cfg.fd then [FdTaken] else [])
  }

  lemma LogsArePrefixes(cfg: Setup, pos: Pos)
    requires pos == AtFd ==> cfg.fd
    ensures AfterFd(cfg) == Script(cfg)
    ensures EventsBefore(cfg, pos) <= Script(cfg)
    ensures pos != AtEnd && RequestAt(pos) != Op ==>
            EventsBefore(cfg, pos) + Effects(cfg, RequestAt(pos)) <= Script(cfg)
  {
    assert AfterFd(cfg) == Script(cfg);
    assert AfterReady(cfg) <= AfterFd(cfg);
    assert AfterRootfs(cfg) + Effects(cfg, Ready) <= AfterReady(cfg);
    assert AfterRootfs(cfg) <= AfterRootfs(cfg) + Effects(cfg, Ready);
    assert AfterHooks(cfg) <= AfterRootfs(cfg);
    match pos
    case AtHooks =>
      assert EventsBefore(cfg, pos) + Effects(cfg, Hooks) == AfterHooks(cfg);
    case _ =>
  }

  /** In every run, also one that fails or is cut short, the parent has done an initial part of the script. */
  lemma LogFollowsScript(cfg: Setup, s: State)
    requires Reachable(cfg, s)
    ensures s.events <= Script(cfg)
    ensures s.reg ==> cfg.fsEnabled && cfg.preReg
  {
    hide Reachable, Talk, WaysOut, Quiet, Losses, EventsBefore, Effects, Script, AfterFd;
    ReachableInv(cfg, s);
    LogsArePrefixes(cfg, s.next);
  }

  /** A reply under way tells how far the parent has come. */
  lemma ReplyTellsPlace(cfg: Setup, s: State)
    requires Inv(cfg, s)
    ensures Carries(s.down, Resume) ==> PastHooks(s.next)
    ensures Carries(s.down, RootfsAck) ==> PastRootfs(s.next)
    ensures Carries(s.down, Run) ==> PastReady(s.next)
    ensures Carries(s.down, FdDone) ==> s.next == AtEnd && cfg.fd
  {
    hide WaysOut, Quiet, Losses, EventsBefore;
    assert s.down == Empty || s.down.rest == Empty;
  }

  /** The last two things done before the go-ahead. */
  ghost predicate SavedThenRun(events: seq<Event>) {
    exists i :: 0 < i < |events| && events[i - 1] == StateSaved && events[i] == RunSent
  }

  /** What the log holds when the parent is to serve `next`. */
  lemma PlaceTellsLog(cfg: Setup, next: Pos, events: seq<Event>)
    requires EventsBefore(cfg, next) <= events
    ensures PastHooks(next) && cfg.hooks ==> HooksRun in events
    ensures PastRootfs(next) && cfg.fsEnabled ==> Registered in events
    ensures PastReady(next) ==> SavedThenRun(events)
    ensures next == AtEnd && cfg.fd ==> FdTaken in events
  {
    LogParts(cfg);
    hide Effects, AfterHooks, AfterRootfs, AfterReady, AfterFd;
    if PastReady(next) {
      var done := AfterReady(cfg);
      assert done <= events;
      assert events[|done| - 2] == StateSaved && events[|done| - 1] == RunSent;
    }
  }

  lemma LogParts(cfg: Setup)
    ensures AfterHooks(cfg) <= AfterRootfs(cfg) <= AfterReady(cfg) <= AfterFd(cfg)
    ensures cfg.hooks ==> HooksRun in AfterHooks(cfg)
    ensures cfg.fsEnabled ==> Registered in AfterRootfs(cfg)
    ensures |AfterReady(cfg)| >= 2 && AfterReady(cfg)[|AfterReady(cfg)| - 2..] == [StateSaved, RunSent]
    ensures cfg.fd ==> FdTaken in AfterFd(cfg)
  {
    ReadyParts(cfg);
    hide Effects;
    assert AfterReady(cfg) <= AfterFd(cfg);
    assert AfterHooks(cfg) <= AfterRootfs(cfg);
  }

  lemma ReadyParts(cfg: Setup)
    ensures var ready := Effects(cfg, Ready); |ready| > 0 && ready[|ready| - 1] == StateSaved
    ensures cfg.hooks ==> Effects(cfg, Hooks) == [HooksRun]
    ensures cfg.fsEnabled ==> Effects(cfg, RootfsReady) == [Registered]
    ensures Effects(cfg, SeccompFd) == [FdTaken]
    ensures AfterRootfs(cfg) <= AfterReady(cfg)
  {
    hide AfterRootfs;
    assert AfterReady(cfg) == AfterRootfs(cfg) + (Effects(cfg, Ready) + [RunSent]);
  }

  lemma LogHasPlace(cfg: Setup, s: State)
    requires Inv(cfg, s)
    ensures EventsBefore(cfg, s.next) <= s.events
  {
    hide Talk, WaysOut, Quiet, Losses, EventsBefore, Effects;
  }

  /**
   * What each reply by its name stands for, in every reachable state: a resume under way means that the hooks have
   * run, an acknowledgement that the container is registered, a go-ahead that its state has been saved just before,
   * and the last reply that the descriptor has been taken.
   */
  lemma RepliesKeepTheirWord(cfg: Setup, s: State)
    requires Reachable(cfg, s)
    ensures Carries(s.down, Resume) && cfg.hooks ==> HooksRun in s.events
    ensures Carries(s.down, RootfsAck) && cfg.fsEnabled ==> Registered in s.events
    ensures Carries(s.down, Run) ==> SavedThenRun(s.events)
    ensures Carries(s.down, FdDone) ==> FdTaken in s.events
  {
    hide Reachable, Inv, EventsBefore, SavedThenRun, Carries, PastHooks, PastRootfs, PastReady;
    ReachableInv(cfg, s);
    ReplyTellsPlace(cfg, s);
    LogHasPlace(cfg, s);
    PlaceTellsLog(cfg, s.next, s.events);
  }

  predicate IsOp(pos: Pos) {
    pos.EarlyOp? || pos.LateOp?
  }

  /** A go-ahead and a payload under way belong to the request that is being served. */
  lemma PayloadsKeepTheirPlace(cfg: Setup, s: State)
    requires Reachable(cfg, s)
    ensures Carries(s.down, SendOpInfo) || Carries(s.up, OpInfo) ==> IsOp(s.next)
    ensures Carries(s.down, SendFd) || Carries(s.up, FdPayload) ==> s.next == AtFd && cfg.fd
    ensures Carries(s.down, OpDone) ==> s.c.Paid? && IsOp(s.c.pos) && s.next == After(cfg, s.c.pos)
  {
    hide Reachable, WaysOut, Quiet, Losses, EventsBefore, After;
    ReachableInv(cfg, s);
    assert s.down == Empty || s.down.rest == Empty;
    assert s.up == Empty || s.up.rest == Empty || s.up == Pending(ProcError, One(ErrorPayload));
  }

  /** Init gets no further than that either: it works beyond a request only after what it asked for was done. */
  lemma InitWaitsForItsParent(cfg: Setup, s: State)
    requires Reachable(cfg, s) && s.c.Working?
    ensures s.c.pos != AtHooks && !s.c.pos.EarlyOp? && cfg.hooks ==> HooksRun in s.events
    ensures (s.c.pos.LateOp? || s.c.pos == AtReady) && cfg.fsEnabled ==> Registered in s.events
    ensures s.c.pos == AtFd || s.c.pos == AtEnd ==> SavedThenRun(s.events)
    ensures s.c.pos == AtEnd && cfg.fd ==> FdTaken in s.events
  {
    hide Reachable, EventsBefore, SavedThenRun, Record, WaysOut, Losses, Quiet;
    ReachableInv(cfg, s);
    assert s.c.pos == s.next;
    LogHasPlace(cfg, s);
    PlaceTellsLog(cfg, s.next, s.events);
  }

  /**
   * When start-up reports success, hooks, registration, saved state and go-ahead all happened, in that order; the
   * only thing that may be missing is the seccomp descriptor, and only if init was killed.
   */
  lemma SuccessMeansDone(cfg: Setup, s: State)
    requires Reachable(cfg, s) && s.p == Returned(true)
    ensures s.sentRun && s.sentResume && s.reg == cfg.fsEnabled
    ensures cfg.fsEnabled ==> cfg.preReg
    ensures s.events == Script(cfg) || (s.killed && cfg.fd && s.events + [FdTaken] == Script(cfg))
    ensures !s.killed ==> s.c == Closed && s.events == Script(cfg) && s.lostUp == 0
  {
    hide Reachable, Quiet, RequestAt, After;
    ReachableInv(cfg, s);
    LogsArePrefixes(cfg, s.next);
    if s.next == AtFd {
      assert AfterFd(cfg) == AfterReady(cfg) + [FdTaken];
    }
  }

  /** How often the hooks ran. */
  function HookRuns(events: seq<Event>): nat {
    if events == [] then 0 else (if events[0] == HooksRun then 1 else 0) + HookRuns(events[1..])
  }

  lemma {:induction false} HookRunsConcat(a: seq<Event>, b: seq<Event>)
    ensures HookRuns(a + b) == HookRuns(a) + HookRuns(b)
  {
    if a == [] {
      assert a + b == b;
    } else {
      assert (a + b)[1..] == a[1..] + b;
      HookRunsConcat(a[1..], b);
    }
  }

  lemma HooksInScript(cfg: Setup)
    ensures HookRuns(Script(cfg)) == if !cfg.hooks then 0 else if cfg.newns then 1 else 2
    ensures cfg.hooks && cfg.fsEnabled ==> [HooksRun, Registered] <= Script(cfg)
  {
    var first := if cfg.hooks then [HooksRun] else [];
    var reg := if cfg.fsEnabled then [Registered] else [];
    var second := if cfg.hooks && !cfg.newns then [HooksRun] else [];
    var fd := if cfg.fd then [FdTaken] else [];
    HookRunsConcat(first + reg + second + [StateSaved, RunSent], fd);
    HookRunsConcat(first + reg + second, [StateSaved, RunSent]);
    HookRunsConcat(first + reg, second);
    HookRunsConcat(first, reg);
    assert [StateSaved, RunSent][1..] == [RunSent] && [RunSent][1..] == [];
  }

  /**
   * In a successful start-up the hooks run twice exactly without a mount namespace, and first of all before
   * registration.
   */
  lemma HooksRunTwiceWithoutMountNs(cfg: Setup, s: State)
    requires Reachable(cfg, s) && s.p == Returned(true)
    ensures HookRuns(s.events) == if !cfg.hooks then 0 else if cfg.newns then 1 else 2
    ensures cfg.hooks && cfg.fsEnabled ==> [HooksRun, Registered] <= s.events
  {
    hide Reachable, Script;
    SuccessMeansDone(cfg, s);
    HooksInScript(cfg);
    HookRunsConcat(s.events, [FdTaken]);
    ScriptIsLong(cfg);
  }

  lemma ScriptIsLong(cfg: Setup)
    ensures cfg.hooks && cfg.fsEnabled ==> |Script(cfg)| >= 4
  {
  }

  /** When start-up reports failure, init is gone: it exited by itself or was killed. */
  lemma FailureLeavesNoInit(cfg: Setup, s: State)
    requires Reachable(cfg, s) && s.p == Returned(false)
    ensures s.ChildClosed() && (s.c == Closed ==> s.killed)
    ensures s.faulted || (cfg.fsEnabled && !cfg.preReg)
  {
    hide Reachable, Record, Losses, Talk;
    ReachableInv(cfg, s);
  }

  /** The parent can be made to panic in every configuration. */
  lemma PanicCanHappen(cfg: Setup)
    ensures exists s :: Reachable(cfg, s) && s.p == Panicked
  {
    var s0 := Initial(cfg);
    var s1 := s0.(c := Working(Start(cfg)), down := Empty);
    var s2 := s1.(c := Failing, faulted := true);
    var s3 := s2.(c := Failing2, up := One(ProcError));
    var s4 := s3.(killed := true, killedMid := true);
    var s5 := s4.(p := ReadError, up := Empty);
    var s6 := s5.(p := Panicked);
    assert Next(cfg, s0, ChildRead(0)) == Some(s1);
    assert Next(cfg, s1, ChildFails) == Some(s2);
    assert Next(cfg, s2, Child) == Some(s3);
    assert Next(cfg, s3, ChildKilled) == Some(s4);
    assert Next(cfg, s4, ParentRead(0)) == Some(s5);
    assert Next(cfg, s5, Parent) == Some(s6);
    SixSteps(cfg, s0, s1, s2, s3, s4, s5, s6, [ChildRead(0), ChildFails, Child, ChildKilled, ParentRead(0), Parent]);
    assert Reachable(cfg, s6);
  }

  lemma SixSteps(cfg: Setup, s0: State, s1: State, s2: State, s3: State, s4: State, s5: State, s6: State,
                 acts: seq<Action>)
    requires |acts| == 6
    requires Next(cfg, s0, acts[0]) == Some(s1) && Next(cfg, s1, acts[1]) == Some(s2) &&
             Next(cfg, s2, acts[2]) == Some(s3)
    requires Next(cfg, s3, acts[3]) == Some(s4) && Next(cfg, s4, acts[4]) == Some(s5) &&
             Next(cfg, s5, acts[5]) == Some(s6)
    ensures Execute(cfg, s0, acts) == Some(s6)
  {
    hide Next;
    assert Execute(cfg, s6, acts[6..]) == Some(s6);
    assert acts[5..][1..] == acts[6..];
    assert Execute(cfg, s5, acts[5..]) == Some(s6);
    assert acts[4..][1..] == acts[5..];
    assert Execute(cfg, s4, acts[4..]) == Some(s6);
    assert acts[3..][1..] == acts[4..];
    assert Execute(cfg, s3, acts[3..]) == Some(s6);
    assert acts[2..][1..] == acts[3..];
    assert Execute(cfg, s2, acts[2..]) == Some(s6);
    assert acts[1..][1..] == acts[2..];
    assert Execute(cfg, s1, acts[1..]) == Some(s6);
  }

  // ----- deadlock freedom -----

  /** Some step other than a fault can be taken. */
  ghost predicate CanMove(cfg: Setup, s: State) {
    exists act :: !IsFault(act) && Next(cfg, s, act).Some?
  }

  predicate Settled(s: State) {
    s.ParentGone() && s.ChildClosed()
  }

  lemma ChildCanMove(cfg: Setup, s: State)
    requires Inv(cfg, s) && !s.ChildClosed()
    requires s.c.Working? || s.c.Sending? || s.c == Failing || s.c == Failing2 || s.down.Pending? || s.shut
    ensures ChildStep(cfg, s).Some? || ChildReads(cfg, s, 0).Some?
  {
    hide Record, Losses, Quiet, WaysOut, After;
  }

  lemma ParentCanMove(cfg: Setup, s: State)
    requires Inv(cfg, s) && !s.ParentGone()
    requires s.p == Loop || s.p == ReadError || s.p.AwaitPayload? ==> s.up.Pending? || s.buf.Pending? || s.ChildClosed()
    requires s.p == Waiting ==> s.ChildClosed()
    ensures ParentStep(cfg, s).Some? || ParentReads(cfg, s, 0).Some?
  {
    hide Record, Losses, Quiet, After, DoEffects, Reply;
  }

  /** When both sides are stuck, each has finished. */
  lemma SomebodyCanMove(cfg: Setup, s: State)
    requires Inv(cfg, s) && !Settled(s)
    ensures ParentStep(cfg, s).Some? || ParentReads(cfg, s, 0).Some? ||
            (!s.ChildClosed() && (ChildStep(cfg, s).Some? || ChildReads(cfg, s, 0).Some?))
  {
    hide Inv, ParentStep, ParentReads, ChildStep, ChildReads;
    if !s.ChildClosed() {
      ParentStays(cfg, s);
      if s.c.Working? || s.c.Sending? || s.c == Failing || s.c == Failing2 || s.down.Pending? || s.shut {
        ChildCanMove(cfg, s);
      } else {
        WaitedFor(cfg, s);
        ParentCanMove(cfg, s);
      }
    } else {
      ParentCanMove(cfg, s);
    }
  }

  /** If init waits and no reply is under way, the parent has something to read or to do. */
  lemma WaitedFor(cfg: Setup, s: State)
    requires Inv(cfg, s) && !s.ChildClosed() && s.down == Empty && !s.shut
    requires s.c == AwaitConfig || s.c.Asked? || s.c.Paid?
    ensures s.p != Waiting
    ensures s.p == Loop || s.p == ReadError || s.p.AwaitPayload? ==> s.up.Pending?
  {
    hide Record, Losses, Quiet, After;
  }

  /** No deadlock: in every reachable state either somebody can go on or both sides have finished. */
  lemma NoDeadlock(cfg: Setup, s: State)
    requires Reachable(cfg, s)
    ensures CanMove(cfg, s) || Settled(s)
  {
    hide Reachable, Inv, ParentStep, ParentReads, ChildStep, ChildReads, HandlerFailure;
    ReachableInv(cfg, s);
    if !Settled(s) {
      SomebodyCanMove(cfg, s);
      assert Next(cfg, s, Parent) == ParentStep(cfg, s);
      assert Next(cfg, s, ParentRead(0)) == ParentReads(cfg, s, 0);
      if !s.ChildClosed() {
        assert Next(cfg, s, Child) == ChildStep(cfg, s);
        assert Next(cfg, s, ChildRead(0)) == ChildReads(cfg, s, 0);
      }
    }
  }

  /** Without faults, nothing is recorded as one. */
  lemma {:induction false} FaultsAreRecorded(cfg: Setup, s: State, acts: seq<Action>)
    requires Execute(cfg, s, acts).Some? && forall act :: act in acts ==> !IsFault(act)
    ensures Execute(cfg, s, acts).value.faulted == s.faulted
    decreases |acts|
  {
    hide Next, Left;
    if acts != [] {
      NextLeavesLess(cfg, s, acts[0]);
      FaultsAreRecorded(cfg, Next(cfg, s, acts[0]).value, acts[1..]);
    }
  }

  /**
   * A run without faults that cannot be continued ends well exactly when registration is possible: the parent
   * returns success, init has closed its pipe, and the whole script is done.
   */
  lemma FaultFreeOutcome(cfg: Setup, acts: seq<Action>, s: State)
    requires Execute(cfg, Initial(cfg), acts) == Some(s) && !CanMove(cfg, s)
    requires forall act :: act in acts ==> !IsFault(act)
    ensures s.p == Returned(true) <==> (cfg.fsEnabled ==> cfg.preReg)
    ensures s.p == Returned(true) ==> s.c == Closed && !s.killed && s.events == Script(cfg)
    ensures s.p == Returned(false) || s.p == Returned(true)
  {
    hide Inv, Execute, CanMove, Script;
    assert Reachable(cfg, s);
    NoDeadlock(cfg, s);
    FaultsAreRecorded(cfg, Initial(cfg), acts);
    ReachableInv(cfg, s);
    if s.p == Returned(true) {
      SuccessMeansDone(cfg, s);
    }
    QuietOutcome(cfg, s);
  }

  lemma QuietOutcome(cfg: Setup, s: State)
    requires Inv(cfg, s) && !s.faulted && Settled(s)
    ensures s.p == Returned(false) || s.p == Returned(true)
    ensures (cfg.fsEnabled ==> cfg.preReg) ==> s.p == Returned(true)
    ensures s.p == Returned(true) ==> !s.killed
  {
    hide Record, Losses, Talk;
  }
}
