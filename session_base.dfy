/** The base `Session` of session.py: what a session knows about its target
  * and how it reports its end to the core. It is its own module because
  * the client calls back into it. */
module SessionBase {
  import opened Basics
  import opened Errors
  import opened PyStr
  import opened Aker
  import opened Trace

  /** `int(port)` in `Session.__init__`: the integer default passes through;
    * text is parsed as Python's `int` parses it, and a ValueError is raised
    * when it is not an integer literal. */
  function PortNumber(port: PortArg): (r: Result<int, Fault>)
    ensures port.DefaultPort? ==> r == Ok(port.number)
    ensures port.PortText? ==> (r.Ok? <==> ParseInt(port.text).Some?)
    ensures r.Err? ==> port.PortText? && r.error == ValueError(port.text)
  {
    match port
    case DefaultPort(n) => Ok(n)
    case PortText(t) =>
      match ParseInt(t)
      case Some(v) => Ok(v)
      case None => Err(ValueError(t))
  }

  /** A `port=` value written as a decimal, with any surrounding blanks. */
  lemma PortNumberOfDecimal(n: nat, pad: string, pad': string)
    requires forall i :: 0 <= i < |pad| ==> IsSpace(pad[i])
    requires forall i :: 0 <= i < |pad'| ==> IsSpace(pad'[i])
    ensures PortNumber(PortText(pad + Decimal(n) + pad')) == Ok(n)
  {
    ParseDecimal(n, pad, pad');
  }

  /** "port=" with nothing after it crashes the session's construction. */
  lemma EmptyPortRejected()
    ensures PortNumber(PortText("")) == Err(ValueError(""))
  {
  }

  /** The effect of `session_end_callback(session)`: the core logs the
    * session's id, its own POSIX user and the session's host. */
  function EndOf(uuid: SessionId, core: Core, host: string): Effect {
    SessionEnd(uuid, core.posixUser, host)
  }

  class Session {
    const core: Core
    const host: string
    const hostUser: string
    const hostPort: int
    const srcPort: string
    const uuid: SessionId
    /** The gateway process the session runs in. */
    const process: Process

    /** `Session.__init__` once `int(port)` has succeeded: the target user
      * is the gateway user's own name and the source port comes from the
      * core's configuration. */
    constructor (core: Core, host: string, uuid: SessionId, port: int, process: Process)
      ensures this.core == core && this.host == host && this.uuid == uuid && this.process == process
      ensures hostUser == core.user.name && hostPort == port && srcPort == core.config.srcPort
    {
      this.core := core;
      this.host := host;
      this.hostUser := core.user.name;
      this.hostPort := port;
      this.srcPort := core.config.srcPort;
      this.uuid := uuid;
      this.process := process;
    }

    /** `close_session`: the core's `session_end_callback` for this session. */
    method CloseSession()
      modifies process
      ensures process.trace == old(process.trace) + [EndOf(uuid, core, host)]
      ensures process.terminal == old(process.terminal)
    {
      process.trace := process.trace + [EndOf(uuid, core, host)];
    }

    /** `kill_session(signum, stack)`: the same as `close_session`. */
    method KillSession(signum: int)
      modifies process
      ensures process.trace == old(process.trace) + [EndOf(uuid, core, host)]
      ensures process.terminal == old(process.terminal)
    {
      CloseSession();
    }
  }
}
