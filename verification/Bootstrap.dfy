/**
 * Container bootstrap: the Go parent and the three nsexec stages, exchanging bytes over three socket pairs.
 * A step is one read, write, clone, wait or exit of one process. Any stage may die at any moment, and the
 * parent may give up at any moment. End of file is seen exactly when no live process holds the other end; a
 * stage that writes in that situation dies of the signal, before it can kill anybody.
 */
module Bootstrap {

  import opened Wrappers
  import opened Pipes

  /** `newUser` and `waitByte` are clone flags seen by the stages; `sendByte` is the parent's own test. */
  datatype Config = Config(newUser: bool, waitByte: bool, sendByte: bool)

  datatype Pid = NoPid | Stage1Pid | Stage2Pid

  /** Synchronisation values; a raw pid follows RecvPidPls on the same pipe. */
  datatype Sync = UserMapPls | UserMapAck | RecvPidPls | RecvPidAck | Grandchild | ChildReady | RawPid(pid: Pid)

  /** What the parent writes on the init pipe. */
  datatype Down = BootstrapData | CgroupByte | ConfigJson

  /** What stage 0 writes on the init pipe. */
  datatype PidJson = PidJson(pid: Pid, first: Pid)

  datatype Life = Unborn | Alive | ExitedOk | Died

  datatype ParentPc = SendBootstrap | GetChildPid | WaitFirstChild | SendByte | WaitStage0 | SendConfig | ParentDone

  datatype Stage0Pc =
    | ReadBootstrap | CloneStage1 | ChildLoop | WriteMaps | SendMapAck | ReadPid | SendPidAck | SendPidJson
    | SendGrandchild | WaitGrandchildReady | Stage0Done

  datatype Stage1Pc =
    | Stage1Start | SendMapPls | WaitMapAck | CloneStage2 | SendPidPls | SendRawPid | WaitPidAck | SendChildReady
    | Stage1Done

  datatype Stage2Pc = Stage2Start | WaitGrandchild | WaitByte | SendReady | ReadConfig | Running

  datatype State = State(
    p: ParentPc, parentOpen: bool, gotPid: Option<PidJson>,
    a: Stage0Pc, aLife: Life, child: Pid, first: Pid,
    b: Stage1Pc, bLife: Life,
    c: Stage2Pc, cLife: Life,
    toInit: Pipe<Down>, toParent: Pipe<PidJson>,
    to0: Pipe<Sync>, to1: Pipe<Sync>,
    g0: Pipe<Sync>, g2: Pipe<Sync>,
    uidMapped: Pipe<Pid>, gidMapped: Pipe<Pid>, reported: Pipe<PidJson>,
    faulted: bool)
  {
    // Who holds which end. Stage 0 makes both pairs; clones inherit every descriptor that is still open.

    /** The stage-1 end of the child pipe; stage 0 drops its copy right after cloning. */
    predicate ChildEnd() {
      (aLife == Alive && (a == ReadBootstrap || a == CloneStage1)) || bLife == Alive ||
        (cLife == Alive && c == Stage2Start)
    }

    /** The stage-0 end of the child pipe. */
    predicate ChildPeerEnd() {
      aLife == Alive || (bLife == Alive && b == Stage1Start)
    }

    /** The stage-2 end of the grandchild pipe, apart from stage 0's own copy; stage 1 keeps one until it exits. */
    predicate GrandchildEnd() {
      bLife == Alive || (cLife == Alive && c != ReadConfig && c != Running)
    }

    /** The stage-0 end of the grandchild pipe. */
    predicate GrandchildPeerEnd() {
      aLife == Alive || bLife == Alive || (cLife == Alive && c == Stage2Start)
    }

    /** The children's end of the init pipe. */
    predicate InitEnd() {
      aLife == Alive || bLife == Alive || cLife == Alive
    }

    function LifeOf(pid: Pid): Life {
      match pid
      case NoPid => Died
      case Stage1Pid => bLife
      case Stage2Pid => cLife
    }

    function Kill(pid: Pid): State {
      match pid
      case NoPid => this
      case Stage1Pid => if bLife == Alive then this.(bLife := Died) else this
      case Stage2Pid => if cLife == Alive then this.(cLife := Died) else this
    }

    function Die0(): State { this.(aLife := Died) }

    function Die1(): State { this.(bLife := Died) }

    function Die2(): State { this.(cLife := Died) }

    /** The parent returns an error: it kills the process it knows (stage 0, then init) and closes its end. */
    function GiveUp(): State {
      var s := if p == SendConfig then Kill(Stage2Pid) else if aLife == Alive then Die0() else this;
      s.(parentOpen := false)
    }
  }

  function Initial(): State {
    State(SendBootstrap, true, None, ReadBootstrap, Alive, NoPid, NoPid, Stage1Start, Unborn, Stage2Start, Unborn,
          Empty, Empty, Empty, Empty, Empty, Empty, Empty, Empty, Empty, false)
  }

  datatype Action = Parent | Stage0 | Stage1 | Stage2 | ParentFails | Crash0 | Crash1 | Crash2

  predicate IsFault(act: Action) {
    (act == ParentFails || act == Crash0 || act == Crash1 || act == Crash2)
  }

  function ParentStep(cfg: Config, s: State): Option<State>
    requires s.parentOpen
  {
    match s.p
    case SendBootstrap =>
      if s.InitEnd() then Some(s.(p := GetChildPid, toInit := Write(s.toInit, BootstrapData))) else Some(s.GiveUp())
    case GetChildPid =>
      if s.toParent.Pending? then
        Some(s.(p := WaitFirstChild, gotPid := Some(s.toParent.head), toParent := s.toParent.rest))
      else if !s.InitEnd() then Some(s.GiveUp())
      else None
    case WaitFirstChild =>
      if s.gotPid.Some? && s.LifeOf(s.gotPid.value.first) == Alive then None else Some(s.(p := SendByte))
    case SendByte =>
      if !cfg.sendByte then Some(s.(p := WaitStage0))
      else if s.InitEnd() then Some(s.(p := WaitStage0, toInit := Write(s.toInit, CgroupByte)))
      else Some(s.GiveUp())
    case WaitStage0 =>
      if s.aLife == Alive then None
      else if s.aLife == ExitedOk then Some(s.(p := SendConfig))
      else Some(s.GiveUp())
    case SendConfig =>
      if s.InitEnd() then Some(s.(p := ParentDone, toInit := Write(s.toInit, ConfigJson))) else Some(s.GiveUp())
    case ParentDone => None
  }

  function Stage0Step(s: State): Option<State>
    requires s.aLife == Alive
  {
    match s.a
    case ReadBootstrap =>
      if s.toInit.Pending? then
        Some(if s.toInit.head == BootstrapData then s.(a := CloneStage1, toInit := s.toInit.rest) else s.Die0())
      else if !s.parentOpen then Some(s.Die0())
      else None
    case CloneStage1 => Some(s.(a := ChildLoop, bLife := Alive, child := Stage1Pid))
    case ChildLoop =>
      if s.to0.Pending? then
        Some(match s.to0.head
             case UserMapPls => s.(a := WriteMaps, to0 := s.to0.rest)
             case RecvPidPls => s.(a := ReadPid, first := s.child, to0 := s.to0.rest)
             case ChildReady => s.(a := SendGrandchild, to0 := s.to0.rest)
             case _ => s.Die0())
      else if !s.ChildEnd() then Some(s.Die0())
      else None
    case WriteMaps =>
      Some(s.(a := SendMapAck, uidMapped := Write(s.uidMapped, s.child), gidMapped := Write(s.gidMapped, s.child)))
    case SendMapAck =>
      Some(if s.ChildEnd() then s.(a := ChildLoop, to1 := Write(s.to1, UserMapAck)) else s.Die0())
    case ReadPid =>
      if s.to0.Pending? then
        Some(s.(a := SendPidAck, child := if s.to0.head.RawPid? then s.to0.head.pid else NoPid, to0 := s.to0.rest))
      else if !s.ChildEnd() then Some(s.Kill(s.first).Die0())
      else None
    case SendPidAck =>
      Some(if s.ChildEnd() then s.(a := SendPidJson, to1 := Write(s.to1, RecvPidAck)) else s.Die0())
    case SendPidJson =>
      var json := PidJson(s.child, s.first);
      Some(if s.parentOpen
           then s.(a := ChildLoop, toParent := Write(s.toParent, json), reported := Write(s.reported, json))
           else s.Die0())
    case SendGrandchild =>
      Some(if s.GrandchildEnd() then s.(a := WaitGrandchildReady, g2 := Write(s.g2, Grandchild)) else s.Die0())
    case WaitGrandchildReady =>
      if s.g0.Pending? then
        Some(if s.g0.head == ChildReady then s.(a := Stage0Done, aLife := ExitedOk, g0 := s.g0.rest) else s.Die0())
      else if !s.GrandchildEnd() then Some(s.Die0())
      else None
    case Stage0Done => None
  }

  function Stage1Step(cfg: Config, s: State): Option<State>
    requires s.bLife == Alive
  {
    match s.b
    case Stage1Start => Some(s.(b := if cfg.newUser then SendMapPls else CloneStage2))
    case SendMapPls =>
      Some(if s.ChildPeerEnd() then s.(b := WaitMapAck, to0 := Write(s.to0, UserMapPls)) else s.Die1())
    case WaitMapAck =>
      if s.to1.Pending? then
        Some(if s.to1.head == UserMapAck then s.(b := CloneStage2, to1 := s.to1.rest) else s.Die1())
      else if !s.ChildPeerEnd() then Some(s.Die1())
      else None
    case CloneStage2 => Some(s.(b := SendPidPls, cLife := Alive))
    case SendPidPls =>
      Some(if s.ChildPeerEnd() then s.(b := SendRawPid, to0 := Write(s.to0, RecvPidPls)) else s.Die1())
    case SendRawPid =>
      Some(if s.ChildPeerEnd() then s.(b := WaitPidAck, to0 := Write(s.to0, RawPid(Stage2Pid))) else s.Die1())
    case WaitPidAck =>
      if s.to1.Pending? then
        Some(if s.to1.head == RecvPidAck then s.(b := SendChildReady, to1 := s.to1.rest) else s.Kill(Stage2Pid).Die1())
      else if !s.ChildPeerEnd() then Some(s.Kill(Stage2Pid).Die1())
      else None
    case SendChildReady =>
      Some(if s.ChildPeerEnd() then s.(b := Stage1Done, to0 := Write(s.to0, ChildReady)) else s.Die1())
    case Stage1Done => Some(s.(bLife := ExitedOk))
  }

  /** Stage 2 goes on as the Go init process, whose first act is to read the configuration. */
  function Stage2Step(cfg: Config, s: State): Option<State>
    requires s.cLife == Alive
  {
    match s.c
    case Stage2Start => Some(s.(c := WaitGrandchild))
    case WaitGrandchild =>
      if s.g2.Pending? then
        Some(if s.g2.head == Grandchild then s.(c := if cfg.waitByte then WaitByte else SendReady, g2 := s.g2.rest)
             else s.Die2())
      else if !s.GrandchildPeerEnd() then Some(s.Die2())
      else None
    case WaitByte =>
      if s.toInit.Pending? then
        Some(if s.toInit.head == CgroupByte then s.(c := SendReady, toInit := s.toInit.rest) else s.Die2())
      else if !s.parentOpen then Some(s.Die2())
      else None
    case SendReady =>
      Some(if s.GrandchildPeerEnd() then s.(c := ReadConfig, g0 := Write(s.g0, ChildReady)) else s.Die2())
    case ReadConfig =>
      if s.toInit.Pending? then
        Some(if s.toInit.head == ConfigJson then s.(c := Running, toInit := s.toInit.rest) else s.Die2())
      else if !s.parentOpen then Some(s.Die2())
      else None
    case Running => None
  }

  /** The state after an action, or none when the process is blocked, gone or finished. */
  function Next(cfg: Config, s: State, act: Action): Option<State> {
    match act
    case Parent => if s.parentOpen then ParentStep(cfg, s) else None
    case Stage0 => if s.aLife == Alive then Stage0Step(s) else None
    case Stage1 => if s.bLife == Alive then Stage1Step(cfg, s) else None
    case Stage2 => if s.cLife == Alive then Stage2Step(cfg, s) else None
    case ParentFails => if s.parentOpen && s.p != ParentDone then Some(s.GiveUp().(faulted := true)) else None
    case Crash0 => if s.aLife == Alive then Some(s.Die0().(faulted := true)) else None
    case Crash1 => if s.bLife == Alive then Some(s.Die1().(faulted := true)) else None
    case Crash2 => if s.cLife == Alive then Some(s.Die2().(faulted := true)) else None
  }

  /** Running a schedule; none when it asks for an action that cannot happen. */
  function Run(cfg: Config, s: State, acts: seq<Action>): Option<State>
    decreases |acts|
  {
    if acts == [] then Some(s)
    else
      var next := Next(cfg, s, acts[0]);
      if next.None? then None else Run(cfg, next.value, acts[1..])
  }

  // ----- the invariant -----

  const REPORT := PidJson(Stage2Pid, Stage1Pid)

  /** The child pipe, stage 0 and stage 1 move in lock step. */
  ghost predicate ChildPipe(a: Stage0Pc, unborn: bool, b: Stage1Pc, to0: Pipe<Sync>, to1: Pipe<Sync>,
                            reported: Pipe<PidJson>) {
    match b
    case Stage1Start | SendMapPls | CloneStage2 | SendPidPls =>
      to0 == Empty && to1 == Empty && reported == Empty &&
      if unborn then b == Stage1Start && (a == ReadBootstrap || a == CloneStage1) else a == ChildLoop
    case WaitMapAck =>
      !unborn && reported == Empty &&
      (|| (to0 == One(UserMapPls) && to1 == Empty && a == ChildLoop)
       || (to0 == Empty && to1 == Empty && (a == WriteMaps || a == SendMapAck))
       || (to0 == Empty && to1 == One(UserMapAck) && a == ChildLoop))
    case SendRawPid =>
      !unborn && reported == Empty && to1 == Empty &&
      ((to0 == One(RecvPidPls) && a == ChildLoop) || (to0 == Empty && a == ReadPid))
    case WaitPidAck =>
      !unborn &&
      (|| (to0 == Pending(RecvPidPls, One(RawPid(Stage2Pid))) && to1 == Empty && a == ChildLoop && reported == Empty)
       || (to0 == One(RawPid(Stage2Pid)) && to1 == Empty && a == ReadPid && reported == Empty)
       || (to0 == Empty && to1 == Empty && a == SendPidAck && reported == Empty)
       || (to0 == Empty && to1 == One(RecvPidAck) && a == SendPidJson && reported == Empty)
       || (to0 == Empty && to1 == One(RecvPidAck) && a == ChildLoop && reported == One(REPORT)))
    case SendChildReady =>
      !unborn && to0 == Empty && to1 == Empty &&
      ((a == SendPidJson && reported == Empty) || (a == ChildLoop && reported == One(REPORT)))
    case Stage1Done =>
      !unborn && to1 == Empty &&
      (|| (to0 == One(ChildReady) && a == SendPidJson && reported == Empty)
       || (to0 == One(ChildReady) && a == ChildLoop && reported == One(REPORT))
       || (to0 == Empty && Handing(a) != Before && reported == One(REPORT)))
  }

  /** How far stage 0 is in handing over to stage 2. */
  datatype Handover = Before | Greeting | Waiting | Over

  function Handing(a: Stage0Pc): Handover {
    match a
    case SendGrandchild => Greeting
    case WaitGrandchildReady => Waiting
    case Stage0Done => Over
    case _ => Before
  }

  /** The grandchild pipe, stage 0 and stage 2. */
  ghost predicate GrandchildPipe(cfg: Config, h: Handover, c: Stage2Pc, g0: Pipe<Sync>, g2: Pipe<Sync>) {
    match c
    case Stage2Start | WaitGrandchild =>
      g0 == Empty && h != Over && g2 == (if h == Waiting then One(Grandchild) else Empty)
    case WaitByte =>
      g0 == Empty && g2 == Empty && h == Waiting && cfg.waitByte
    case SendReady =>
      g0 == Empty && g2 == Empty && h == Waiting
    case ReadConfig | Running =>
      g2 == Empty && ((h == Waiting && g0 == One(ChildReady)) || (h == Over && g0 == Empty))
  }

  /** Stage 2 is born when stage 1 clones it. */
  ghost predicate Born(b: Stage1Pc, c: Stage2Pc, cLife: Life) {
    && (cLife == Unborn <==> b == Stage1Start || b == SendMapPls || b == WaitMapAck || b == CloneStage2)
    && (cLife == Unborn ==> c == Stage2Start)
  }

  predicate PastByte(c: Stage2Pc) {
    c == SendReady || c == ReadConfig || c == Running
  }

  predicate ByteSent(cfg: Config, p: ParentPc) {
    cfg.sendByte && (p == WaitStage0 || p == SendConfig || p == ParentDone)
  }

  predicate BytePending(cfg: Config, p: ParentPc, c: Stage2Pc) {
    ByteSent(cfg, p) && !(cfg.waitByte && PastByte(c))
  }

  /** The init pipe downwards: what the parent wrote and its readers have not consumed. */
  ghost predicate InitDown(cfg: Config, p: ParentPc, unread: bool, c: Stage2Pc, toInit: Pipe<Down>) {
    && (p == SendBootstrap ==> unread)
    && (unread ==> p == SendBootstrap || p == GetChildPid)
    && (cfg.waitByte && PastByte(c) ==> ByteSent(cfg, p))
    && (c == Running ==> p == ParentDone && (cfg.sendByte ==> cfg.waitByte))
    && match p
       case SendBootstrap => toInit == Empty
       case GetChildPid => toInit == if unread then One(BootstrapData) else Empty
       case WaitFirstChild | SendByte => toInit == Empty
       case WaitStage0 | SendConfig => toInit == if BytePending(cfg, p, c) then One(CgroupByte) else Empty
       case ParentDone =>
         toInit == if BytePending(cfg, p, c) then Pending(CgroupByte, One(ConfigJson))
                   else if c == Running then Empty else One(ConfigJson)
  }

  /** The init pipe upwards: one report of the two pids. */
  ghost predicate InitUp(p: ParentPc, toParent: Pipe<PidJson>, reported: Pipe<PidJson>, gotPid: Option<PidJson>) {
    if p == SendBootstrap || p == GetChildPid then toParent == reported && gotPid == None
    else toParent == Empty && reported == One(REPORT) && gotPid == Some(REPORT)
  }

  /** Which pids stage 0 holds. */
  ghost predicate Pids(a: Stage0Pc, reported: Pipe<PidJson>, child: Pid, first: Pid) {
    && (a == ReadPid || a == SendPidAck || a == SendPidJson || reported.Pending? ==> first == Stage1Pid)
    && (if a == SendPidAck || a == SendPidJson || reported.Pending? then child == Stage2Pid
        else a == ReadBootstrap || a == CloneStage1 || child == Stage1Pid)
  }

  /** For whom stage 0 wrote the maps. */
  ghost predicate Maps(cfg: Config, a: Stage0Pc, b: Stage1Pc, to0: Pipe<Sync>, uid: Pipe<Pid>, gid: Pipe<Pid>) {
    && (!cfg.newUser ==> b != SendMapPls && b != WaitMapAck)
    && uid == gid
    && uid == if !cfg.newUser || b == Stage1Start || b == SendMapPls then Empty
              else if b == WaitMapAck && (to0.Pending? || a == WriteMaps) then Empty
              else One(Stage1Pid)
  }

  /** Program counters agree with what is alive. */
  ghost predicate Lives(p: ParentPc, open: bool, a: Stage0Pc, aLife: Life, b: Stage1Pc, bLife: Life, cLife: Life) {
    && aLife != Unborn
    && (aLife == ExitedOk <==> a == Stage0Done)
    && (bLife == ExitedOk ==> b == Stage1Done)
    && cLife != ExitedOk
    && (p == SendByte || p == WaitStage0 || p == SendConfig || p == ParentDone ==> bLife != Alive)
    && (p == SendConfig || p == ParentDone ==> a == Stage0Done)
    && (!open ==> p != ParentDone && (p == SendConfig ==> cLife != Alive) && aLife != Alive)
  }

  ghost predicate Core(cfg: Config, s: State) {
    && ChildPipe(s.a, s.bLife == Unborn, s.b, s.to0, s.to1, s.reported)
    && GrandchildPipe(cfg, Handing(s.a), s.c, s.g0, s.g2)
    && Born(s.b, s.c, s.cLife)
    && InitDown(cfg, s.p, s.a == ReadBootstrap, s.c, s.toInit)
    && InitUp(s.p, s.toParent, s.reported, s.gotPid)
    && Pids(s.a, s.reported, s.child, s.first)
    && Maps(cfg, s.a, s.b, s.to0, s.uidMapped, s.gidMapped)
  }

  /** The parent sends no byte that nobody waits for. */
  predicate NoStrayByte(cfg: Config) {
    cfg.sendByte ==> cfg.waitByte
  }

  /** Without a stray byte nobody dies and the parent does not give up, short of a fault. */
  ghost predicate Sound(cfg: Config, s: State) {
    NoStrayByte(cfg) && !s.faulted ==>
      s.parentOpen && s.aLife != Died && s.bLife != Died && s.cLife != Died
  }

  ghost predicate Inv(cfg: Config, s: State) {
    && Core(cfg, s)
    && Lives(s.p, s.parentOpen, s.a, s.aLife, s.b, s.bLife, s.cLife)
    && Sound(cfg, s)
  }

  lemma InitialInv(cfg: Config)
    ensures Inv(cfg, Initial())
  {
  }

  // ----- progress -----

  function ParentLeft(p: ParentPc): nat {
    match p
    case SendBootstrap => 6
    case GetChildPid => 5
    case WaitFirstChild => 4
    case SendByte => 3
    case WaitStage0 => 2
    case SendConfig => 1
    case ParentDone => 0
  }

  /** Serving a message never costs stage 0 more than the message is worth. */
  function Stage0Left(a: Stage0Pc): nat {
    match a
    case ReadBootstrap => 10
    case CloneStage1 => 9
    case ReadPid => 8
    case WriteMaps | SendPidAck => 7
    case SendMapAck | SendPidJson => 6
    case ChildLoop => 5
    case SendGrandchild => 4
    case WaitGrandchildReady => 3
    case Stage0Done => 0
  }

  function Stage1Left(b: Stage1Pc): nat {
    match b
    case Stage1Start => 45
    case SendMapPls => 40
    case WaitMapAck => 35
    case CloneStage2 => 30
    case SendPidPls => 25
    case SendRawPid => 20
    case WaitPidAck => 15
    case SendChildReady => 10
    case Stage1Done => 5
  }

  function Stage2Left(c: Stage2Pc): nat {
    match c
    case Stage2Start => 6
    case WaitGrandchild => 5
    case WaitByte => 4
    case SendReady => 3
    case ReadConfig => 2
    case Running => 1
  }

  predicate Gone(life: Life) {
    life == ExitedOk || life == Died
  }

  /** What is left to do, counting four for each message that stage 0 has yet to serve. */
  function Left(s: State): nat {
    (if s.parentOpen then 1 + ParentLeft(s.p) else 0) +
    (if Gone(s.aLife) then 0 else Stage0Left(s.a)) +
    (if Gone(s.bLife) then 0 else Stage1Left(s.b)) +
    (if Gone(s.cLife) then 0 else Stage2Left(s.c)) +
    4 * Length(s.to0)
  }

  // ----- every action keeps the invariant and leaves less to do -----

  lemma ParentAdvances(cfg: Config, s: State, s': State)
    requires Inv(cfg, s) && s.parentOpen && ParentStep(cfg, s) == Some(s') && s'.parentOpen
    ensures Inv(cfg, s') && Left(s') < Left(s)
  {
    hide ChildPipe, GrandchildPipe, Born, Pids, Maps, Length;
    match s.p
    case SendBootstrap =>
      assert s' == s.(p := GetChildPid, toInit := Write(s.toInit, BootstrapData));
    case GetChildPid =>
      ReportedIsOne(cfg, s);
      assert s' == s.(p := WaitFirstChild, gotPid := Some(s.toParent.head), toParent := s.toParent.rest);
    case WaitFirstChild =>
      assert s' == s.(p := SendByte);
    case SendByte =>
      if cfg.sendByte {
        assert s' == s.(p := WaitStage0, toInit := Write(s.toInit, CgroupByte));
      } else {
        assert s' == s.(p := WaitStage0);
      }
    case WaitStage0 =>
      assert s' == s.(p := SendConfig);
    case SendConfig =>
      assert s' == s.(p := ParentDone, toInit := Write(s.toInit, ConfigJson));
    case ParentDone =>
  }

  lemma ReportedIsOne(cfg: Config, s: State)
    requires Core(cfg, s)
    ensures s.reported == Empty || s.reported == One(REPORT)
    ensures s.reported.Pending? ==> s.a != ReadBootstrap
  {
    hide GrandchildPipe, InitDown, InitUp, Born, Pids, Maps;
  }

  lemma Stage0Boots(cfg: Config, s: State, s': State)
    requires Inv(cfg, s) && s.aLife == Alive && Stage0Step(s) == Some(s') && s'.aLife != Died
    requires s.a == ReadBootstrap || s.a == CloneStage1
    ensures Inv(cfg, s') && Left(s') < Left(s)
  {
    hide GrandchildPipe, Length;
    if s.a == ReadBootstrap {
      assert s' == s.(a := CloneStage1, toInit := s.toInit.rest);
    } else {
      assert s' == s.(a := ChildLoop, bLife := Alive, child := Stage1Pid);
    }
  }

  lemma Stage0Loops(cfg: Config, s: State, s': State)
    requires Inv(cfg, s) && s.aLife == Alive && Stage0Step(s) == Some(s') && s'.aLife != Died
    requires s.a == ChildLoop
    ensures Inv(cfg, s') && Left(s') < Left(s)
  {
    hide GrandchildPipe, InitUp, InitDown, Born;
    match s.to0.head
    case UserMapPls =>
      assert s' == s.(a := WriteMaps, to0 := s.to0.rest);
    case RecvPidPls =>
      assert s' == s.(a := ReadPid, first := s.child, to0 := s.to0.rest);
    case ChildReady =>
      StageTwoWaits(cfg, s);
      assert s' == s.(a := SendGrandchild, to0 := s.to0.rest);
    case _ =>
  }

  /** While stage 0 is still in its loop, the grandchild pipe is idle. */
  lemma StageTwoWaits(cfg: Config, s: State)
    requires Core(cfg, s) && Handing(s.a) == Before
    ensures GrandchildPipe(cfg, Greeting, s.c, s.g0, s.g2)
  {
    hide ChildPipe, InitDown, InitUp, Born, Pids, Maps;
  }

  lemma Stage0Serves(cfg: Config, s: State, s': State)
    requires Inv(cfg, s) && s.aLife == Alive && Stage0Step(s) == Some(s') && s'.aLife != Died
    requires s.a == WriteMaps || s.a == SendMapAck || s.a == ReadPid || s.a == SendPidAck || s.a == SendPidJson
    ensures Inv(cfg, s') && Left(s') < Left(s)
  {
    hide GrandchildPipe, InitDown, Born;
    match s.a
    case WriteMaps =>
      assert s' == s.(a := SendMapAck, uidMapped := Write(s.uidMapped, s.child),
                      gidMapped := Write(s.gidMapped, s.child));
    case SendMapAck =>
      assert s' == s.(a := ChildLoop, to1 := Write(s.to1, UserMapAck));
    case ReadPid =>
      assert s.to0 == One(RawPid(Stage2Pid));
      assert s' == s.(a := SendPidAck, child := Stage2Pid, to0 := Empty);
    case SendPidAck =>
      assert s' == s.(a := SendPidJson, to1 := Write(s.to1, RecvPidAck));
    case SendPidJson =>
      assert s' == s.(a := ChildLoop, toParent := Write(s.toParent, REPORT), reported := Write(s.reported, REPORT));
    case _ =>
  }

  lemma Stage0HandsOver(cfg: Config, s: State, s': State)
    requires Inv(cfg, s) && s.aLife == Alive && Stage0Step(s) == Some(s') && s'.aLife != Died
    requires s.a == SendGrandchild || s.a == WaitGrandchildReady
    ensures Inv(cfg, s') && Left(s') < Left(s)
  {
    hide InitUp, InitDown, Born, Length;
    if s.a == SendGrandchild {
      assert s' == s.(a := WaitGrandchildReady, g2 := Write(s.g2, Grandchild));
    } else {
      assert s' == s.(a := Stage0Done, aLife := ExitedOk, g0 := s.g0.rest);
    }
  }

  lemma Stage1MapsIn(cfg: Config, s: State, s': State)
    requires Inv(cfg, s) && s.bLife == Alive && Stage1Step(cfg, s) == Some(s') && s'.bLife != Died
    requires s.b == Stage1Start || s.b == SendMapPls || s.b == WaitMapAck || s.b == CloneStage2
    ensures Inv(cfg, s') && Left(s') < Left(s)
  {
    hide GrandchildPipe, InitUp, InitDown, Pids, Length;
    match s.b
    case Stage1Start =>
      assert s' == s.(b := if cfg.newUser then SendMapPls else CloneStage2);
    case SendMapPls =>
      assert s' == s.(b := WaitMapAck, to0 := Write(s.to0, UserMapPls));
    case WaitMapAck =>
      assert s' == s.(b := CloneStage2, to1 := s.to1.rest);
    case CloneStage2 =>
      assert s' == s.(b := SendPidPls, cLife := Alive);
    case _ =>
  }

  lemma Stage1PassesPid(cfg: Config, s: State, s': State)
    requires Inv(cfg, s) && s.bLife == Alive && Stage1Step(cfg, s) == Some(s') && s'.bLife != Died
    requires s.b == SendPidPls || s.b == SendRawPid || s.b == WaitPidAck || s.b == SendChildReady || s.b == Stage1Done
    ensures Inv(cfg, s') && Left(s') < Left(s)
  {
    hide GrandchildPipe, InitUp, InitDown, Pids, Length;
    match s.b
    case SendPidPls =>
      assert s' == s.(b := SendRawPid, to0 := Write(s.to0, RecvPidPls));
    case SendRawPid =>
      assert s' == s.(b := WaitPidAck, to0 := Write(s.to0, RawPid(Stage2Pid)));
    case WaitPidAck =>
      assert s' == s.(b := SendChildReady, to1 := s.to1.rest);
    case SendChildReady =>
      assert s' == s.(b := Stage1Done, to0 := Write(s.to0, ChildReady));
    case Stage1Done =>
      assert s' == s.(bLife := ExitedOk);
    case _ =>
  }

  lemma Stage2Advances(cfg: Config, s: State, s': State)
    requires Inv(cfg, s) && s.cLife == Alive && Stage2Step(cfg, s) == Some(s') && s'.cLife != Died
    ensures Inv(cfg, s') && Left(s') < Left(s)
  {
    hide ChildPipe, Pids, Maps, InitUp, Length;
    match s.c
    case Stage2Start =>
      assert s' == s.(c := WaitGrandchild);
    case WaitGrandchild =>
      if cfg.waitByte {
        assert s' == s.(c := WaitByte, g2 := s.g2.rest);
      } else {
        assert s' == s.(c := SendReady, g2 := s.g2.rest);
      }
    case WaitByte =>
      assert s' == s.(c := SendReady, toInit := s.toInit.rest);
    case SendReady =>
      assert s' == s.(c := ReadConfig, g0 := Write(s.g0, ChildReady));
    case ReadConfig =>
      assert s' == s.(c := Running, toInit := s.toInit.rest);
    case Running =>
  }

  // ----- deaths -----

  /** `s'` is `s` after processes died, or after the parent closed its end. */
  ghost predicate OnlyDeaths(s: State, s': State) {
    && s' == s.(aLife := s'.aLife, bLife := s'.bLife, cLife := s'.cLife, parentOpen := s'.parentOpen,
                faulted := s'.faulted)
    && (s'.aLife == s.aLife || (s.aLife == Alive && s'.aLife == Died))
    && (s'.bLife == s.bLife || (s.bLife == Alive && s'.bLife == Died))
    && (s'.cLife == s.cLife || (s.cLife == Alive && s'.cLife == Died))
    && (s'.parentOpen ==> s.parentOpen)
  }

  lemma DeathsKeepInv(cfg: Config, s: State, s': State)
    requires Inv(cfg, s) && OnlyDeaths(s, s')
    requires s'.parentOpen == s.parentOpen ||
             (s.p != ParentDone && (s.p == SendConfig ==> s'.cLife != Alive) && s'.aLife != Alive)
    requires NoStrayByte(cfg) ==> s'.faulted
    ensures Inv(cfg, s')
  {
    hide ChildPipe, GrandchildPipe, InitUp, InitDown, Pids, Maps, Length;
  }

  lemma DeathsLeaveLess(s: State, s': State)
    requires OnlyDeaths(s, s')
    requires s'.aLife != s.aLife || s'.bLife != s.bLife || s'.cLife != s.cLife || s'.parentOpen != s.parentOpen
    requires s.aLife == Alive ==> s.a != Stage0Done
    ensures Left(s') < Left(s)
  {
    hide Length;
  }

  lemma ParentGivesUpOnlyIf(cfg: Config, s: State, s': State)
    requires Inv(cfg, s) && s.parentOpen && ParentStep(cfg, s) == Some(s') && !s'.parentOpen
    ensures s' == s.GiveUp() && (NoStrayByte(cfg) ==> s.faulted)
  {
    hide GrandchildPipe, Pids, Maps;
  }

  lemma Stage0DeathFrame(s: State, s': State)
    requires s.aLife == Alive && Stage0Step(s) == Some(s') && s'.aLife == Died
    ensures OnlyDeaths(s, s') && s'.parentOpen == s.parentOpen && s'.faulted == s.faulted
  {
    match s.a
    case ReadPid =>
      assert s' == s.Kill(s.first).Die0();
    case ReadBootstrap | ChildLoop | SendMapAck | SendPidAck | SendPidJson | SendGrandchild | WaitGrandchildReady =>
      assert s' == s.Die0();
    case _ =>
  }

  lemma Stage0DiesOnlyIf(cfg: Config, s: State, s': State)
    requires Inv(cfg, s) && s.aLife == Alive && Stage0Step(s) == Some(s') && s'.aLife == Died
    ensures NoStrayByte(cfg) ==> s.faulted
  {
    hide InitUp, Pids, Maps, OnlyDeaths;
  }

  lemma Stage1DeathFrame(cfg: Config, s: State, s': State)
    requires s.bLife == Alive && Stage1Step(cfg, s) == Some(s') && s'.bLife == Died
    ensures OnlyDeaths(s, s') && s'.parentOpen == s.parentOpen && s'.faulted == s.faulted
  {
    match s.b
    case WaitPidAck =>
      assert s' == s.Kill(Stage2Pid).Die1();
    case SendMapPls | WaitMapAck | SendPidPls | SendRawPid | SendChildReady =>
      assert s' == s.Die1();
    case _ =>
  }

  lemma Stage1DiesOnlyIf(cfg: Config, s: State, s': State)
    requires Inv(cfg, s) && s.bLife == Alive && Stage1Step(cfg, s) == Some(s') && s'.bLife == Died
    ensures NoStrayByte(cfg) ==> s.faulted
  {
    hide InitUp, InitDown, Pids, Maps, OnlyDeaths;
  }

  lemma Stage2DeathFrame(cfg: Config, s: State, s': State)
    requires s.cLife == Alive && Stage2Step(cfg, s) == Some(s') && s'.cLife == Died
    ensures OnlyDeaths(s, s') && s'.parentOpen == s.parentOpen && s'.faulted == s.faulted
  {
    assert s' == s.Die2();
  }

  lemma Stage2DiesOnlyIf(cfg: Config, s: State, s': State)
    requires Inv(cfg, s) && s.cLife == Alive && Stage2Step(cfg, s) == Some(s') && s'.cLife == Died
    ensures NoStrayByte(cfg) ==> s.faulted
  {
    hide InitUp, Pids, Maps, OnlyDeaths;
  }

  // ----- one step -----

  lemma ParentKeeps(cfg: Config, s: State, s': State)
    requires Inv(cfg, s) && s.parentOpen && ParentStep(cfg, s) == Some(s')
    ensures Inv(cfg, s') && Left(s') < Left(s) && s'.faulted == s.faulted
  {
    hide Inv, Core, Lives, Sound, Left, ParentStep;
    ParentFaults(cfg, s, s');
    if s'.parentOpen {
      ParentAdvances(cfg, s, s');
    } else {
      ParentGivesUpOnlyIf(cfg, s, s');
      GiveUpKeeps(cfg, s, s');
    }
  }

  lemma ParentFaults(cfg: Config, s: State, s': State)
    requires s.parentOpen && ParentStep(cfg, s) == Some(s')
    ensures s'.faulted == s.faulted && s.p != ParentDone
  {
    match s.p case _ =>
  }

  lemma GiveUpKeeps(cfg: Config, s: State, s': State)
    requires Inv(cfg, s) && s.parentOpen && s.p != ParentDone && s' == s.GiveUp().(faulted := s'.faulted)
    requires NoStrayByte(cfg) ==> s'.faulted
    ensures Inv(cfg, s') && Left(s') < Left(s)
  {
    hide Core, Sound;
    assert OnlyDeaths(s, s');
    hide OnlyDeaths;
    DeathsKeepInv(cfg, s, s');
    DeathsLeaveLess(s, s');
  }

  lemma Stage0Keeps(cfg: Config, s: State, s': State)
    requires Inv(cfg, s) && s.aLife == Alive && Stage0Step(s) == Some(s')
    ensures Inv(cfg, s') && Left(s') < Left(s) && s'.faulted == s.faulted
  {
    hide Inv, Core, Sound, Left, Stage0Step;
    Stage0Faults(s, s');
    if s'.aLife == Died {
      Stage0DeathFrame(s, s');
      Stage0DiesOnlyIf(cfg, s, s');
      DeathsKeepInv(cfg, s, s');
      DeathsLeaveLess(s, s');
    } else if s.a == ReadBootstrap || s.a == CloneStage1 {
      Stage0Boots(cfg, s, s');
    } else if s.a == ChildLoop {
      Stage0Loops(cfg, s, s');
    } else if s.a == SendGrandchild || s.a == WaitGrandchildReady {
      Stage0HandsOver(cfg, s, s');
    } else {
      Stage0Serves(cfg, s, s');
    }
  }

  lemma Stage0Faults(s: State, s': State)
    requires s.aLife == Alive && Stage0Step(s) == Some(s')
    ensures s'.faulted == s.faulted && s.a != Stage0Done
  {
    match s.a case _ =>
  }

  lemma Stage1Keeps(cfg: Config, s: State, s': State)
    requires Inv(cfg, s) && s.bLife == Alive && Stage1Step(cfg, s) == Some(s')
    ensures Inv(cfg, s') && Left(s') < Left(s) && s'.faulted == s.faulted
  {
    Stage0NotDone(cfg, s);
    hide Inv, Core, Sound, Left, Stage1Step;
    Stage1Faults(cfg, s, s');
    if s'.bLife == Died {
      Stage1DeathFrame(cfg, s, s');
      Stage1DiesOnlyIf(cfg, s, s');
      DeathsKeepInv(cfg, s, s');
      DeathsLeaveLess(s, s');
    } else if s.b == Stage1Start || s.b == SendMapPls || s.b == WaitMapAck || s.b == CloneStage2 {
      Stage1MapsIn(cfg, s, s');
    } else {
      Stage1PassesPid(cfg, s, s');
    }
  }

  lemma Stage0NotDone(cfg: Config, s: State)
    requires Inv(cfg, s)
    ensures s.aLife == Alive ==> s.a != Stage0Done
  {
    hide Core, Sound;
  }

  lemma Stage1Faults(cfg: Config, s: State, s': State)
    requires s.bLife == Alive && Stage1Step(cfg, s) == Some(s')
    ensures s'.faulted == s.faulted
  {
    match s.b case _ =>
  }

  lemma Stage2Keeps(cfg: Config, s: State, s': State)
    requires Inv(cfg, s) && s.cLife == Alive && Stage2Step(cfg, s) == Some(s')
    ensures Inv(cfg, s') && Left(s') < Left(s) && s'.faulted == s.faulted
  {
    Stage0NotDone(cfg, s);
    hide Inv, Core, Sound, Left, Stage2Step;
    Stage2Faults(cfg, s, s');
    if s'.cLife == Died {
      Stage2DeathFrame(cfg, s, s');
      Stage2DiesOnlyIf(cfg, s, s');
      DeathsKeepInv(cfg, s, s');
      DeathsLeaveLess(s, s');
    } else {
      Stage2Advances(cfg, s, s');
    }
  }

  lemma Stage2Faults(cfg: Config, s: State, s': State)
    requires s.cLife == Alive && Stage2Step(cfg, s) == Some(s')
    ensures s'.faulted == s.faulted
  {
    match s.c case _ =>
  }

  lemma CrashKeeps(cfg: Config, s: State, s': State)
    requires Inv(cfg, s)
    requires || (s.aLife == Alive && s' == s.Die0().(faulted := true))
             || (s.bLife == Alive && s' == s.Die1().(faulted := true))
             || (s.cLife == Alive && s' == s.Die2().(faulted := true))
    ensures Inv(cfg, s') && Left(s') < Left(s)
  {
    Stage0NotDone(cfg, s);
    assert OnlyDeaths(s, s');
    hide Inv, Core, Sound, Left, OnlyDeaths;
    DeathsKeepInv(cfg, s, s');
    DeathsLeaveLess(s, s');
  }

  /** Every action, faults included, keeps the invariant and leaves strictly less to do. */
  lemma NextKeeps(cfg: Config, s: State, act: Action)
    requires Inv(cfg, s) && Next(cfg, s, act).Some?
    ensures var s' := Next(cfg, s, act).value;
            Inv(cfg, s') && Left(s') < Left(s) && (s'.faulted <==> s.faulted || IsFault(act))
  {
    hide Inv, Left, ParentStep, Stage0Step, Stage1Step, Stage2Step;
    var s' := Next(cfg, s, act).value;
    match act
    case Parent => ParentKeeps(cfg, s, s');
    case Stage0 => Stage0Keeps(cfg, s, s');
    case Stage1 => Stage1Keeps(cfg, s, s');
    case Stage2 => Stage2Keeps(cfg, s, s');
    case ParentFails => GiveUpKeeps(cfg, s, s');
    case Crash0 | Crash1 | Crash2 => CrashKeeps(cfg, s, s');
  }

  // ----- whole runs -----

  lemma {:induction false} RunKeeps(cfg: Config, s: State, acts: seq<Action>)
    requires Inv(cfg, s) && Run(cfg, s, acts).Some?
    ensures var s' := Run(cfg, s, acts).value;
            Inv(cfg, s') && |acts| + Left(s') <= Left(s) &&
              (s'.faulted <==> s.faulted || exists act <- acts :: IsFault(act))
    decreases |acts|
  {
    hide Inv, Left, Next;
    if acts != [] {
      NextKeeps(cfg, s, acts[0]);
      RunKeeps(cfg, Next(cfg, s, acts[0]).value, acts[1..]);
      assert acts == [acts[0]] + acts[1..];
    }
  }

  /** Whatever is scheduled and whoever dies, a bootstrap takes at most 68 steps. */
  lemma RunIsBounded(cfg: Config, acts: seq<Action>)
    requires Run(cfg, Initial(), acts).Some?
    ensures |acts| <= 68
  {
    InitialInv(cfg);
    RunKeeps(cfg, Initial(), acts);
  }

  predicate PastMaps(b: Stage1Pc) {
    b != Stage1Start && b != SendMapPls && b != WaitMapAck
  }

  predicate PastGreeting(c: Stage2Pc) {
    c != Stage2Start && c != WaitGrandchild
  }

  /**
   * In every reachable state: stage 1 is past its user-map wait only after both maps were written once, for
   * its own pid, and without a new user namespace they are never written; stage 2 is past its greeting only after
   * the pids were reported once, the right way round; stage 0 exits with success only after both children said
   * ready; and a parent that has given up has seen to it that stage 0, or the init it knows, is gone.
   */
  lemma StagesAreOrdered(cfg: Config, acts: seq<Action>)
    requires Run(cfg, Initial(), acts).Some?
    ensures var s := Run(cfg, Initial(), acts).value;
            && (cfg.newUser && PastMaps(s.b) ==> s.uidMapped == One(Stage1Pid) && s.gidMapped == One(Stage1Pid))
            && (!cfg.newUser ==> s.uidMapped == Empty && s.gidMapped == Empty)
            && (s.c == Running ==> PastMaps(s.b))
            && (!s.parentOpen ==> s.aLife != Alive && (s.p == SendConfig ==> s.cLife != Alive))
            && (s.reported == Empty || s.reported == One(REPORT))
            && (PastGreeting(s.c) ==> s.reported == One(REPORT))
            && (s.aLife == ExitedOk ==> s.b == Stage1Done && (s.c == ReadConfig || s.c == Running))
  {
    InitialInv(cfg);
    RunKeeps(cfg, Initial(), acts);
    InvOrders(cfg, Run(cfg, Initial(), acts).value);
  }

  lemma InvOrders(cfg: Config, s: State)
    requires Inv(cfg, s)
    ensures cfg.newUser && PastMaps(s.b) ==> s.uidMapped == One(Stage1Pid) && s.gidMapped == One(Stage1Pid)
    ensures !cfg.newUser ==> s.uidMapped == Empty && s.gidMapped == Empty
    ensures s.c == Running ==> PastMaps(s.b)
    ensures !s.parentOpen ==> s.aLife != Alive && (s.p == SendConfig ==> s.cLife != Alive)
    ensures s.reported == Empty || s.reported == One(REPORT)
    ensures PastGreeting(s.c) ==> s.reported == One(REPORT)
    ensures s.aLife == ExitedOk ==> s.b == Stage1Done && (s.c == ReadConfig || s.c == Running)
  {
    hide InitDown, InitUp, Pids, Sound;
  }

  /** Everybody is finished: either the container is handed over, or nobody is left. */
  predicate Settled(s: State) {
    if s.parentOpen then
      && s.p == ParentDone && s.aLife == ExitedOk && s.bLife != Alive
      && (s.cLife == Alive ==> s.c == Running)
    else s.aLife != Alive && s.bLife != Alive && s.cLife != Alive
  }

  predicate CanMove(cfg: Config, s: State) {
    Next(cfg, s, Parent).Some? || Next(cfg, s, Stage0).Some? || Next(cfg, s, Stage1).Some? || Next(cfg, s, Stage2).Some?
  }

  lemma BlockedStage1(cfg: Config, s: State)
    requires Inv(cfg, s) && s.bLife == Alive
    ensures CanMove(cfg, s)
  {
    hide GrandchildPipe, InitDown, InitUp, Pids, Maps, Sound, Stage2Step;
    if Stage1Step(cfg, s).None? {
      if s.aLife == Alive {
        assert Stage0Step(s).Some?;
      } else {
        StartedStage2(cfg, s);
      }
    }
  }

  lemma StartedStage2(cfg: Config, s: State)
    requires s.cLife == Alive && s.c == Stage2Start
    ensures Next(cfg, s, Stage2).Some?
  {
  }

  /** The parent moves unless it waits for a report, for a child to exit, or has nothing left to do. */
  lemma ParentMoves(cfg: Config, s: State)
    requires s.parentOpen && s.p != ParentDone
    requires s.p == GetChildPid ==> s.toParent.Pending? || !s.InitEnd()
    requires s.p == WaitFirstChild ==> s.bLife != Alive && s.gotPid == Some(REPORT)
    requires s.p == WaitStage0 ==> s.aLife != Alive
    ensures Next(cfg, s, Parent).Some?
  {
    match s.p case _ =>
  }

  lemma BlockedStage2(cfg: Config, s: State)
    requires Inv(cfg, s) && (cfg.waitByte ==> cfg.sendByte)
    requires s.bLife != Alive && s.cLife == Alive && Stage2Step(cfg, s).None?
    ensures s.c == WaitGrandchild ==> s.aLife == Alive && Next(cfg, s, Stage0).Some?
    ensures s.c == WaitByte ==> Next(cfg, s, Parent).Some?
    ensures s.c == ReadConfig ==> Next(cfg, s, Parent).Some? || Next(cfg, s, Stage0).Some?
  {
    hide Pids, Maps, Sound, ParentStep, ChildPipe;
    ReportedAfterGreeting(cfg, s);
    if s.c == WaitGrandchild {
      StageZeroGreets(cfg, s);
    } else if s.c == WaitByte {
      ParentMoves(cfg, s);
    } else if s.c == ReadConfig && s.aLife != Alive {
      ParentMoves(cfg, s);
    }
  }

  lemma ReportedAfterGreeting(cfg: Config, s: State)
    requires Inv(cfg, s)
    ensures PastGreeting(s.c) ==> s.reported == One(REPORT)
  {
    InvOrders(cfg, s);
  }

  /** With stage 1 gone, a live stage 0 that has not yet greeted can move or find its pipe closed. */
  lemma StageZeroGreets(cfg: Config, s: State)
    requires Inv(cfg, s) && s.bLife != Alive && s.aLife == Alive && s.cLife == Alive && s.c == WaitGrandchild
    requires s.g2 == Empty
    ensures Next(cfg, s, Stage0).Some?
  {
    hide Pids, Maps, Sound;
  }

  lemma BlockedStage0(cfg: Config, s: State)
    requires Inv(cfg, s) && s.aLife == Alive && s.bLife != Alive && s.cLife != Alive
    ensures CanMove(cfg, s)
  {
    hide Pids, Maps, Sound, Stage1Step, Stage2Step, InitUp;
  }

  lemma NobodyLeft(cfg: Config, s: State)
    requires Inv(cfg, s) && s.aLife != Alive && s.bLife != Alive && s.cLife != Alive
    ensures Settled(s) || CanMove(cfg, s)
  {
    hide Pids, Maps, Sound, ChildPipe, GrandchildPipe, Born, InitDown, Stage0Step, Stage1Step, Stage2Step;
    if s.parentOpen && s.p != ParentDone {
      ParentMoves(cfg, s);
    }
  }

  /**
   * No deadlock: when the parent sends the byte if stage 2 waits for it, every reachable state either lets some
   * process move without a fault, or is settled. Deaths at any moment are included.
   */
  lemma NoDeadlock(cfg: Config, s: State)
    requires Inv(cfg, s) && (cfg.waitByte ==> cfg.sendByte)
    ensures Settled(s) || CanMove(cfg, s)
  {
    if s.bLife == Alive {
      BlockedStage1(cfg, s);
    } else if s.cLife == Alive {
      if Stage2Step(cfg, s).None? && s.c != Running {
        BlockedStage2(cfg, s);
      } else if s.c == Running {
        RunningIsSettled(cfg, s);
      }
    } else if s.aLife == Alive {
      BlockedStage0(cfg, s);
    } else {
      NobodyLeft(cfg, s);
    }
  }

  lemma RunningIsSettled(cfg: Config, s: State)
    requires Inv(cfg, s) && s.c == Running && s.bLife != Alive
    ensures Settled(s)
  {
    hide Pids, Maps, Sound, ChildPipe, InitUp;
  }

  // ----- outcomes of whole runs -----

  ghost predicate FaultFree(acts: seq<Action>) {
    forall act <- acts :: !IsFault(act)
  }

  /** The container is up: both helper stages exited with success and init has its configuration. */
  predicate Started(s: State) {
    && s.p == ParentDone && s.parentOpen
    && s.aLife == ExitedOk && s.bLife == ExitedOk && s.cLife == Alive && s.c == Running
    && s.toInit == Empty && s.toParent == Empty
    && s.to0 == Empty && s.to1 == Empty && s.g0 == Empty && s.g2 == Empty
  }

  lemma SettledUnfaulted(cfg: Config, s: State)
    requires Inv(cfg, s) && cfg.sendByte == cfg.waitByte && Settled(s) && !s.faulted
    ensures Started(s)
  {
    hide Pids, Maps;
  }

  /** A run that can go no further is settled; if nothing failed from outside, the container has started. */
  lemma CompleteRunsSettle(cfg: Config, acts: seq<Action>)
    requires cfg.sendByte == cfg.waitByte
    requires Run(cfg, Initial(), acts).Some? && !CanMove(cfg, Run(cfg, Initial(), acts).value)
    ensures Settled(Run(cfg, Initial(), acts).value)
    ensures FaultFree(acts) ==> Started(Run(cfg, Initial(), acts).value)
  {
    var s := Run(cfg, Initial(), acts).value;
    assert !Initial().faulted;
    InitialInv(cfg);
    RunKeeps(cfg, Initial(), acts);
    hide Run, Inv, CanMove, Settled, Started;
    NoDeadlock(cfg, s);
    if FaultFree(acts) {
      SettledUnfaulted(cfg, s);
    }
  }

  /** Any unfaulted state can be driven, without faults, to a started container. */
  lemma {:induction false} CanFinish(cfg: Config, s: State) returns (acts: seq<Action>)
    requires Inv(cfg, s) && cfg.sendByte == cfg.waitByte && !s.faulted
    ensures FaultFree(acts) && Run(cfg, s, acts).Some? && Started(Run(cfg, s, acts).value)
    decreases Left(s)
  {
    if !CanMove(cfg, s) {
      NoDeadlock(cfg, s);
      SettledUnfaulted(cfg, s);
      acts := [];
    } else {
      hide Inv, Left, Next, Settled, Started;
      var act := Mover(cfg, s);
      NextKeeps(cfg, s, act);
      var rest := CanFinish(cfg, Next(cfg, s, act).value);
      acts := [act] + rest;
      assert acts[0] == act && acts[1..] == rest;
    }
  }

  /** Without faults, a run that stage 2 makes wait for a byte never sent ends in a circle of waiting. */
  lemma StuckInCircle(cfg: Config, s: State)
    requires Inv(cfg, s) && cfg.waitByte && !cfg.sendByte && !s.faulted && !CanMove(cfg, s)
    ensures s.parentOpen && s.p == WaitStage0
    ensures s.aLife == Alive && s.a == WaitGrandchildReady && s.cLife == Alive && s.c == WaitByte
  {
    hide Pids, Maps;
    if s.bLife == Alive {
      BlockedStage1(cfg, s);
    }
  }

  /** Every unfaulted state can be driven, without faults, to one that cannot move. */
  lemma {:induction false} CanEnd(cfg: Config, s: State) returns (acts: seq<Action>)
    requires Inv(cfg, s)
    ensures FaultFree(acts) && Run(cfg, s, acts).Some? && !CanMove(cfg, Run(cfg, s, acts).value)
    decreases Left(s)
  {
    if !CanMove(cfg, s) {
      acts := [];
    } else {
      hide Inv, Left, Next;
      var act := Mover(cfg, s);
      NextKeeps(cfg, s, act);
      var rest := CanEnd(cfg, Next(cfg, s, act).value);
      acts := [act] + rest;
      assert acts[0] == act && acts[1..] == rest;
    }
  }

  /** A run without faults that ends with somebody still waiting. */
  ghost predicate Hangs(cfg: Config, acts: seq<Action>) {
    && FaultFree(acts) && Run(cfg, Initial(), acts).Some?
    && !CanMove(cfg, Run(cfg, Initial(), acts).value) && !Settled(Run(cfg, Initial(), acts).value)
  }

  /** The bootstrap can hang without a fault if and only if stage 2 waits for a byte that the parent does not send. */
  lemma HangsExactly(cfg: Config)
    ensures (exists acts :: Hangs(cfg, acts)) <==> cfg.waitByte && !cfg.sendByte
  {
    InitialInv(cfg);
    assert !Initial().faulted;
    hide Run, Inv, Initial, CanMove;
    if acts :| Hangs(cfg, acts) {
      RunKeeps(cfg, Initial(), acts);
      if cfg.waitByte ==> cfg.sendByte {
        NoDeadlock(cfg, Run(cfg, Initial(), acts).value);
      }
    }
    if cfg.waitByte && !cfg.sendByte {
      var acts := CanEnd(cfg, Initial());
      RunKeeps(cfg, Initial(), acts);
      StuckInCircle(cfg, Run(cfg, Initial(), acts).value);
      assert Hangs(cfg, acts);
    }
  }

  lemma Mover(cfg: Config, s: State) returns (act: Action)
    requires CanMove(cfg, s)
    ensures !IsFault(act) && Next(cfg, s, act).Some?
  {
    hide Next;
    if Next(cfg, s, Parent).Some? { act := Parent; }
    else if Next(cfg, s, Stage0).Some? { act := Stage0; }
    else if Next(cfg, s, Stage1).Some? { act := Stage1; }
    else { act := Stage2; }
  }

  lemma RunningNeedsAgreement(cfg: Config, s: State)
    requires Inv(cfg, s) && s.c == Running
    ensures cfg.sendByte == cfg.waitByte
  {
    hide ChildPipe, GrandchildPipe, InitUp, Pids, Maps, Sound;
  }

  /** Init can ever get its configuration exactly when the parent sends the byte if and only if stage 2 waits for it. */
  lemma StartsIffByteAgrees(cfg: Config)
    ensures (exists acts :: Run(cfg, Initial(), acts).Some? && Run(cfg, Initial(), acts).value.c == Running) <==>
            cfg.sendByte == cfg.waitByte
  {
    InitialInv(cfg);
    assert !Initial().faulted;
    hide Run, Inv, Initial;
    if acts :| Run(cfg, Initial(), acts).Some? && Run(cfg, Initial(), acts).value.c == Running {
      RunKeeps(cfg, Initial(), acts);
      RunningNeedsAgreement(cfg, Run(cfg, Initial(), acts).value);
    }
    if cfg.sendByte == cfg.waitByte {
      var acts := CanFinish(cfg, Initial());
    }
  }

  /**
   * With agreement, the byte and the configuration are each read by the right reader: nothing else can be at the
   * head of the pipe. When the parent enters its message loop the pipe holds the configuration alone, or init has it.
   */
  lemma CleanInitPipe(cfg: Config, acts: seq<Action>)
    requires cfg.sendByte == cfg.waitByte && Run(cfg, Initial(), acts).Some?
    ensures var s := Run(cfg, Initial(), acts).value;
            && (s.c == WaitByte ==> s.toInit == Empty || s.toInit == One(CgroupByte))
            && (s.c == ReadConfig ==> s.toInit == Empty || s.toInit == One(ConfigJson))
            && (s.p == ParentDone ==>
                  && s.toParent == Empty
                  && s.toInit == if s.c == Running then Empty else One(ConfigJson))
  {
    InitialInv(cfg);
    RunKeeps(cfg, Initial(), acts);
    InvCleanInitPipe(cfg, Run(cfg, Initial(), acts).value);
  }

  lemma InvCleanInitPipe(cfg: Config, s: State)
    requires cfg.sendByte == cfg.waitByte && Inv(cfg, s)
    ensures s.c == WaitByte ==> s.toInit == Empty || s.toInit == One(CgroupByte)
    ensures s.c == ReadConfig ==> s.toInit == Empty || s.toInit == One(ConfigJson)
    ensures s.p == ParentDone ==> s.toParent == Empty && s.toInit == if s.c == Running then Empty else One(ConfigJson)
  {
    hide Pids, Maps, Sound;
  }
}
