/**
 * The container's registration with sysbox-fs: a client that keeps two flags and refuses calls out of order.
 * Whether a message reaches sysbox-fs is an argument of each call.
 */
module Registration {
  import opened Wrappers
  import SyncProtocol

  datatype Message = PreRegistration | Registration | Update | Unregistration

  datatype Flags = Flags(preReg: bool, reg: bool)

  datatype Call = PreRegister | Register | SendCreationTime | Unregister

  /** The message a call sends, unless it is refused or has nothing to do. */
  function Sends(f: Flags, call: Call): Option<Message> {
    match call
    case PreRegister => if f.preReg then None else Some(PreRegistration)
    case Register => if !f.preReg || f.reg then None else Some(Registration)
    case SendCreationTime => if !f.reg then None else Some(Update)
    case Unregister => if f.preReg || f.reg then Some(Unregistration) else None
  }

  /** What a message that was taken makes true. */
  function Taken(f: Flags, msg: Message): Flags {
    match msg
    case PreRegistration => f.(preReg := true)
    case Registration => f.(reg := true)
    case Update => f
    case Unregistration => Flags(false, false)
  }

  /** The client; `log` holds the messages that sysbox-fs has taken. */
  class Fs {
    var preReg: bool
    var reg: bool
    var log: seq<Message>

    function State(): (Flags, seq<Message>)
      reads this
    {
      (Flags(preReg, reg), log)
    }

    constructor ()
      ensures State() == (Flags(false, false), [])
    {
      preReg, reg, log := false, false, [];
    }

    method PreRegister(taken: bool) returns (ok: bool)
      modifies this
      ensures State() == Step(old(State()), Call.PreRegister, taken)
      ensures ok == (taken && !old(preReg))
    {
      if preReg {
        return false;
      }
      if !taken {
        return false;
      }
      log := log + [PreRegistration];
      preReg := true;
      return true;
    }

    method Register(taken: bool) returns (ok: bool)
      modifies this
      ensures State() == Step(old(State()), Call.Register, taken)
      ensures ok == (taken && old(preReg) && !old(reg))
    {
      if !preReg {
        return false;
      }
      if reg {
        return false;
      }
      if !taken {
        return false;
      }
      log := log + [Registration];
      reg := true;
      return true;
    }

    method SendCreationTime(taken: bool) returns (ok: bool)
      modifies this
      ensures State() == Step(old(State()), Call.SendCreationTime, taken)
      ensures ok == (taken && old(reg))
    {
      if !reg {
        return false;
      }
      if !taken {
        return false;
      }
      log := log + [Update];
      return true;
    }

    method Unregister(taken: bool) returns (ok: bool)
      modifies this
      ensures State() == Step(old(State()), Call.Unregister, taken)
      ensures ok == (taken || !(old(preReg) || old(reg)))
    {
      if preReg || reg {
        if !taken {
          return false;
        }
        log := log + [Unregistration];
        preReg, reg := false, false;
      }
      return true;
    }
  }

  function Step(s: (Flags, seq<Message>), call: Call, taken: bool): (Flags, seq<Message>) {
    var msg := Sends(s.0, call);
    if !taken || msg.None? then s else (Taken(s.0, msg.value), s.1 + [msg.value])
  }

  function Calls(s: (Flags, seq<Message>), calls: seq<(Call, bool)>): (Flags, seq<Message>)
    decreases |calls|
  {
    if calls == [] then s else Calls(Step(s, calls[0].0, calls[0].1), calls[1..])
  }

  const NEW: (Flags, seq<Message>) := (Flags(false, false), [])

  // ----- what sysbox-fs sees -----

  /** What may come next, from the messages alone. */
  predicate MayFollow(last: Option<Message>, msg: Message) {
    match msg
    case PreRegistration => last == None || last == Some(Unregistration)
    case Registration => last == Some(PreRegistration)
    case Update => last == Some(Registration) || last == Some(Update)
    case Unregistration => last.Some? && last != Some(Unregistration)
  }

  function Last(log: seq<Message>): Option<Message> {
    if log == [] then None else Some(log[|log| - 1])
  }

  ghost predicate Orderly(log: seq<Message>) {
    forall i :: 0 <= i < |log| ==> MayFollow(Last(log[..i]), log[i])
  }

  /** The flags are what the last message says. */
  predicate Agrees(s: (Flags, seq<Message>)) {
    match Last(s.1)
    case None | Some(Unregistration) => s.0 == Flags(false, false)
    case Some(PreRegistration) => s.0 == Flags(true, false)
    case Some(_) => s.0 == Flags(true, true)
  }

  lemma OrderlySnoc(log: seq<Message>, msg: Message)
    ensures Orderly(log + [msg]) <==> Orderly(log) && MayFollow(Last(log), msg)
  {
    var log' := log + [msg];
    assert log'[..|log|] == log;
    assert forall i :: 0 <= i < |log| ==> log'[..i] == log[..i] && log'[i] == log[i];
    if Orderly(log') {
      assert MayFollow(Last(log'[..|log|]), log'[|log|]);
      forall i | 0 <= i < |log|
        ensures MayFollow(Last(log[..i]), log[i])
      {
        assert MayFollow(Last(log'[..i]), log'[i]);
      }
    }
  }

  lemma StepKeeps(s: (Flags, seq<Message>), call: Call, taken: bool)
    requires Agrees(s) && Orderly(s.1)
    ensures Agrees(Step(s, call, taken)) && Orderly(Step(s, call, taken).1)
  {
    hide Orderly;
    var msg := Sends(s.0, call);
    if taken && msg.Some? {
      OrderlySnoc(s.1, msg.value);
      assert Last(s.1 + [msg.value]) == msg;
      assert MayFollow(Last(s.1), msg.value);
    }
  }

  lemma {:induction false} CallsKeep(s: (Flags, seq<Message>), calls: seq<(Call, bool)>)
    requires Agrees(s) && Orderly(s.1)
    ensures Agrees(Calls(s, calls)) && Orderly(Calls(s, calls).1)
    decreases |calls|
  {
    hide Agrees, Orderly, Step;
    if calls != [] {
      StepKeeps(s, calls[0].0, calls[0].1);
      CallsKeep(Step(s, calls[0].0, calls[0].1), calls[1..]);
    }
  }

  /**
   * Whatever the caller does and whichever messages fail, sysbox-fs sees pre-registration, then at most one
   * registration, then updates, then unregistration, and so on; and a registered container is pre-registered.
   */
  lemma LogIsOrderly(calls: seq<(Call, bool)>)
    ensures Orderly(Calls(NEW, calls).1)
    ensures Calls(NEW, calls).0.reg ==> Calls(NEW, calls).0.preReg
  {
    CallsKeep(NEW, calls);
  }

  function CallFor(msg: Message): Call {
    match msg
    case PreRegistration => PreRegister
    case Registration => Register
    case Update => SendCreationTime
    case Unregistration => Unregister
  }

  lemma {:induction false} CallsSnoc(s: (Flags, seq<Message>), calls: seq<(Call, bool)>, call: (Call, bool))
    ensures Calls(s, calls + [call]) == Step(Calls(s, calls), call.0, call.1)
    decreases |calls|
  {
    if calls == [] {
      assert (calls + [call])[1..] == [];
    } else {
      assert (calls + [call])[1..] == calls[1..] + [call];
      CallsSnoc(Step(s, calls[0].0, calls[0].1), calls[1..], call);
    }
  }

  /** The order is exact: every log that follows it comes from some calls. */
  lemma {:induction false} OrderlyLogsHappen(log: seq<Message>) returns (calls: seq<(Call, bool)>)
    requires Orderly(log)
    ensures Calls(NEW, calls).1 == log
  {
    calls := [];
    var i := 0;
    while i < |log|
      invariant 0 <= i <= |log|
      invariant Calls(NEW, calls).1 == log[..i]
    {
      CallsKeep(NEW, calls);
      CallsSnoc(NEW, calls, (CallFor(log[i]), true));
      assert MayFollow(Last(log[..i]), log[i]);
      assert Sends(Calls(NEW, calls).0, CallFor(log[i])) == Some(log[i]);
      calls := calls + [(CallFor(log[i]), true)];
      assert log[..i + 1] == log[..i] + [log[i]];
      i := i + 1;
    }
    assert log[..i] == log;
  }

  // ----- registration during start-up -----

  /**
   * The start-up protocol refuses a registration exactly when the client does, and when it reports success the
   * client takes the creation time that is sent next.
   */
  lemma CreationTimeIsTaken(cfg: SyncProtocol.Setup, s: SyncProtocol.State)
    requires SyncProtocol.Reachable(cfg, s) && cfg.fsEnabled
    ensures SyncProtocol.Refuses(cfg, s, SyncProtocol.RootfsReady) <==> Sends(Flags(cfg.preReg, s.reg), Register).None?
    ensures s.p == SyncProtocol.Returned(true) ==> Sends(Flags(cfg.preReg, s.reg), SendCreationTime) == Some(Update)
  {
    hide SyncProtocol.Reachable;
    if s.p == SyncProtocol.Returned(true) {
      SyncProtocol.SuccessMeansDone(cfg, s);
    }
  }
}
