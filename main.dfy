/** `main` of aker.py: the forced command decides between the host picker
  * and a direct proxy session to the `host=` target, which is started
  * with one sniffer and stopped in the `finally`. */
module AkerMain {
  import opened Basics
  import opened Errors
  import opened PyStr
  import opened Aker
  import opened Trace
  import opened Interactive
  import opened ClientSpec
  import opened SessionBase
  import opened SSHClientModel
  import opened Sessions

  /** How `main` ends: it hands over to the host picker, or the proxy
    * session ends (or is still relaying) with this exit. */
  datatype Outcome = PickerStarted | Ended(exit: Exit)

  datatype Gateway = Gateway(outcome: Outcome, effects: seq<Effect>)

  /** `main` after the core is built. `lines` and `columns` are LINES and
    * COLUMNS, `reachable` whether the target accepts the TCP connection,
    * `sniffer` the session's SSHSniffer and `prog` what the program on the
    * channel does. The target comes from the command alone: the core's
    * allowed hosts are not consulted. The connect sits before the `try`,
    * so only a started session is followed by `stop_sniffer`, whose own
    * exception replaces the session's. */
  function ProxyRun(core: Core, uuid: SessionId, sniffer: Sniffer, lines: Option<string>, columns: Option<string>,
                    reachable: bool, remote: Remote, local: Local, prog: Run): Gateway {
    match CommandFor(local.originalCommand)
    case HostPicker => Gateway(PickerStarted, [])
    case AssertionFailed => Gateway(Ended(Raised(AssertionError)), [])
    case ProxyTo(host, port) => ProxySession(core, uuid, sniffer, lines, columns, reachable, remote, local, prog, host, port)
  }

  /** The `SSHSession` part of `main`, for the target `host` and `port`. */
  function ProxySession(core: Core, uuid: SessionId, sniffer: Sniffer, lines: Option<string>, columns: Option<string>,
                        reachable: bool, remote: Remote, local: Local, prog: Run, host: string, port: PortArg): Gateway {
    match PortNumber(port)
    case Err(f) => Gateway(Ended(Raised(f)), [])
    case Ok(p) =>
      var connect := [TcpConnect(host, p)];
      if !reachable then Gateway(Ended(Raised(SocketError)), connect)
      else
        var s := Served(sniffer, EndOf(uuid, core, host), core.user.name, ProxyScreenSize(lines, columns), remote, local, prog);
        Gateway(s.outcome, connect + s.effects)
  }

  /** The `try`/`finally` of `main`: the session, then `stop_sniffer`. */
  function Served(sniffer: Sniffer, end: Effect, user: string, size: ScreenSize,
                  remote: Remote, local: Local, prog: Run): Gateway {
    var s := SessionRun([sniffer], end, user, size, remote, local, prog);
    if s.exit == Blocked then Gateway(Ended(Blocked), s.effects)
    else
      var stop := Notify([sniffer], Stop);
      Gateway(Ended(if stop.failure.Some? then Raised(stop.failure.value) else s.exit), s.effects + stop.effects)
  }

  /** `main`, for an already built core: parse the command, create the
    * session, attach the sniffer, connect, and start and stop the session. */
  method RunMain(core: Core, uuid: SessionId, sniffer: Sniffer, lines: Option<string>, columns: Option<string>,
                 reachable: bool, remote: Remote, local: Local, process: Process) returns (o: Outcome)
    modifies process
    ensures var g := ProxyRun(core, uuid, sniffer, lines, columns, reachable, remote, local,
                              Program([sniffer], local, old(process.terminal), remote.events));
            o == g.outcome && process.trace == old(process.trace) + g.effects
    ensures process.terminal == (if o == Ended(Blocked) then RawMode else old(process.terminal))
  {
    var c := ParseCommand(local.originalCommand);
    match c {
      case HostPicker =>
        return PickerStarted;
      case AssertionFailed =>
        return Ended(Raised(AssertionError));
      case ProxyTo(host, port) =>
        o := ProxyMain(core, uuid, sniffer, lines, columns, reachable, remote, local, process, host, port);
    }
  }

  /** The statements of `main` from `SSHSession(...)` on. */
  method ProxyMain(core: Core, uuid: SessionId, sniffer: Sniffer, lines: Option<string>, columns: Option<string>,
                   reachable: bool, remote: Remote, local: Local, process: Process, host: string, port: PortArg)
      returns (o: Outcome)
    modifies process
    ensures var g := ProxySession(core, uuid, sniffer, lines, columns, reachable, remote, local,
                                  Program([sniffer], local, old(process.terminal), remote.events), host, port);
            o == g.outcome && process.trace == old(process.trace) + g.effects
    ensures process.terminal == (if o == Ended(Blocked) then RawMode else old(process.terminal))
  {
    var size := ProxyScreenSize(lines, columns);
    var r := NewSSHSession(core, host, uuid, port, process);
    if r.Err? {
      return Ended(Raised(r.error));
    }
    var session := r.value;
    assert session.base.hostUser == core.user.name && session.base.hostPort == PortNumber(port).value;
    assert EndOf(session.base.uuid, session.base.core, session.base.host) == EndOf(uuid, core, host);
    o := Start(session, sniffer, size, reachable, remote, local);
  }

  /** `attach_sniffer`, `connect`, and the `try`/`finally` of `main`. */
  method Start(session: SSHSession, sniffer: Sniffer, size: ScreenSize, reachable: bool, remote: Remote, local: Local)
      returns (o: Outcome)
    requires session.client.session == session.base && session.client.sniffers == []
    modifies session.client, session.base.process
    ensures var g := Served(sniffer, EndOf(session.base.uuid, session.base.core, session.base.host), session.base.hostUser,
                            size, remote, local, Program([sniffer], local, old(session.base.process.terminal), remote.events));
            var connect := [TcpConnect(session.base.host, session.base.hostPort)];
            if reachable then o == g.outcome && session.base.process.trace == old(session.base.process.trace) + (connect + g.effects)
            else o == Ended(Raised(SocketError)) && session.base.process.trace == old(session.base.process.trace) + connect
    ensures session.base.process.terminal == (if o == Ended(Blocked) then RawMode else old(session.base.process.terminal))
  {
    ghost var g := Served(sniffer, EndOf(session.base.uuid, session.base.core, session.base.host), session.base.hostUser,
                          size, remote, local, Program([sniffer], local, session.base.process.terminal, remote.events));
    ghost var t0 := session.base.process.trace;
    ghost var connect := [TcpConnect(session.base.host, session.base.hostPort)];
    var f := Dial(session, sniffer, size, reachable);
    if f.Some? {
      return Ended(Raised(f.value));
    }
    o := Serve(session, sniffer, remote, local);
    Associative(t0, connect, g.effects);
  }


  /** `attach_sniffer` and `connect`. */
  method Dial(session: SSHSession, sniffer: Sniffer, size: ScreenSize, reachable: bool) returns (failure: Option<Fault>)
    requires session.client.session == session.base && session.client.sniffers == []
    modifies session.client, session.base.process
    ensures session.client.session == session.base && session.client.sniffers == [sniffer]
    ensures session.client.size == Some(size) && session.client.socket == Socket(session.base.host, session.base.hostPort, reachable, true)
    ensures session.client.channel == old(session.client.channel)
    ensures session.base.process.trace == old(session.base.process.trace) + [TcpConnect(session.base.host, session.base.hostPort)]
    ensures session.base.process.terminal == old(session.base.process.terminal)
    ensures failure == (if reachable then None else Some(SocketError))
  {
    session.AttachSniffer(sniffer);
    failure := session.Connect(size, reachable);
  }

  /** The `try`/`finally` of `main`, on a connected session. */
  method Serve(session: SSHSession, sniffer: Sniffer, remote: Remote, local: Local) returns (o: Outcome)
    requires session.client.session == session.base && session.client.sniffers == [sniffer]
    requires session.client.size.Some? && session.client.socket.Socket?
    requires session.client.socket.connected && session.client.socket.open
    modifies session.client, session.base.process
    ensures var g := Served(sniffer, EndOf(session.base.uuid, session.base.core, session.base.host), session.base.hostUser,
                            old(session.client.size.value), remote, local,
                            Program([sniffer], local, old(session.base.process.terminal), remote.events));
            o == g.outcome && session.base.process.trace == old(session.base.process.trace) + g.effects
    ensures session.base.process.terminal == (if o == Ended(Blocked) then RawMode else old(session.base.process.terminal))
  {
    var exit := session.StartSession(remote, local);
    if exit != Blocked {
      ghost var t2 := session.base.process.trace;
      var stopped := session.StopSniffer();
      if stopped.Some? {
        exit := Raised(stopped.value);
      }
      assert session.base.process.trace == t2 + Notify([sniffer], Stop).effects;
    }
    return Ended(exit);
  }

  // ---------------------------------------------------------------- lemmas

  /** What the `finally`'s `stop_sniffer` contributes, if it runs. */
  function StopEffects(sniffer: Sniffer, stopped: bool): seq<Effect> {
    if stopped then Notify([sniffer], Stop).effects else []
  }

  /** A proxy run laid out: connect, key lookups, the client, the stop. */
  function Pieces(host: string, p: int, agentFirst: bool, client: seq<Effect>, sniffer: Sniffer, stopped: bool): seq<Effect> {
    [TcpConnect(host, p)] + KeyLookups(agentFirst) + client + StopEffects(sniffer, stopped)
  }

  /** The `try`/`finally`, in pieces: the key lookups, what the client
    * did, and the `stop_sniffer`. */
  lemma ServedShape(sniffer: Sniffer, end: Effect, user: string, size: ScreenSize, remote: Remote, local: Local, prog: Run)
      returns (client: Run)
    requires local.agentKeys != [] || local.keyFile.Some?
    ensures var g := Served(sniffer, end, user, size, remote, local, prog);
            g.effects == KeyLookups(local.agentKeys != []) + client.effects + StopEffects(sniffer, client.exit != Blocked) &&
            g.outcome.Ended? && (g.outcome.exit == Blocked <==> client.exit == Blocked)
    ensures client == ClientRun([sniffer], end, user, Key(ChosenKey(local)), size, remote, local, prog)
  {
    client := KeyedRun([sniffer], end, user, size, remote, local, prog);
  }

  /** A proxy session, in pieces: the TCP connect, then the `try`/`finally`. */
  lemma ProxyShape(core: Core, uuid: SessionId, sniffer: Sniffer, lines: Option<string>, columns: Option<string>,
                   remote: Remote, local: Local, prog: Run, host: string, port: PortArg, p: int)
      returns (client: Run)
    requires PortNumber(port) == Ok(p)
    requires local.agentKeys != [] || local.keyFile.Some?
    ensures var g := ProxySession(core, uuid, sniffer, lines, columns, true, remote, local, prog, host, port);
            g.effects == Pieces(host, p, local.agentKeys != [], client.effects, sniffer, client.exit != Blocked) &&
            g.outcome.Ended? && (g.outcome.exit == Blocked <==> client.exit == Blocked)
    ensures client == ClientRun([sniffer], EndOf(uuid, core, host), core.user.name, Key(ChosenKey(local)),
                                ProxyScreenSize(lines, columns), remote, local, prog)
  {
    client := ServedShape(sniffer, EndOf(uuid, core, host), core.user.name, ProxyScreenSize(lines, columns),
                          remote, local, prog);
    var looked := KeyLookups(local.agentKeys != []);
    var stop := StopEffects(sniffer, client.exit != Blocked);
    Associative([TcpConnect(host, p)], looked + client.effects, stop);
    Associative([TcpConnect(host, p)], looked, client.effects);
  }

  /** Around the client, the run holds only the connect, key lookups and
    * the sniffer's effects. */
  lemma AroundClient(host: string, p: int, agentFirst: bool, sniffer: Sniffer, stopped: bool)
    ensures forall y :: y in [TcpConnect(host, p)] + KeyLookups(agentFirst) + StopEffects(sniffer, stopped) ==>
              y.TcpConnect? || y.KeyLookup? || DataPath(y)
  {
    NotifyDataPath([sniffer], Stop);
  }

  /** `y`, which is neither a connect, a key lookup nor a sniffer's
    * effect, occurs in the run as often as in the client's part. */
  lemma CountAround(host: string, p: int, agentFirst: bool, client: seq<Effect>, sniffer: Sniffer,
                    stopped: bool, y: Effect)
    requires !y.TcpConnect? && !y.KeyLookup? && !DataPath(y)
    ensures Count(Pieces(host, p, agentFirst, client, sniffer, stopped), y) == Count(client, y)
  {
    var connect, looked, stop := [TcpConnect(host, p)], KeyLookups(agentFirst), StopEffects(sniffer, stopped);
    AroundClient(host, p, agentFirst, sniffer, stopped);
    assert y !in connect + looked + stop;
    assert multiset(connect + looked + client + stop) == multiset(connect) + multiset(looked) + multiset(client) + multiset(stop);
  }

  /** No access check: for a forced `host=` command the gateway connects to
    * that host whatever the identity provider allowed. */
  lemma ConnectsToNamedHost(core: Core, uuid: SessionId, sniffer: Sniffer, lines: Option<string>, columns: Option<string>,
                            reachable: bool, remote: Remote, local: Local, prog: Run, host: string, port: PortArg)
    requires PortNumber(port).Ok?
    ensures var g := ProxySession(core, uuid, sniffer, lines, columns, reachable, remote, local, prog, host, port);
            |g.effects| >= 1 && g.effects[0] == TcpConnect(host, PortNumber(port).value)
  {
  }

  /** The whole run is the same for any allowed hosts and host groups. */
  lemma IgnoresAllowedHosts(core: Core, allowed: set<string>, groups: set<string>, uuid: SessionId, sniffer: Sniffer,
                            lines: Option<string>, columns: Option<string>, reachable: bool, remote: Remote,
                            local: Local, prog: Run, host: string, port: PortArg)
    ensures var other := core.(user := core.user.(allowedHosts := allowed, hostgroups := groups));
            ProxySession(other, uuid, sniffer, lines, columns, reachable, remote, local, prog, host, port) ==
            ProxySession(core, uuid, sniffer, lines, columns, reachable, remote, local, prog, host, port)
  {
    var other := core.(user := core.user.(allowedHosts := allowed, hostgroups := groups));
    assert other.user.name == core.user.name && other.posixUser == core.posixUser;
    assert EndOf(uuid, other, host) == EndOf(uuid, core, host);
  }

  /** An unreachable target raises out of `connect`, before the `try`: no
    * session starts and `stop_sniffer` is not called. */
  lemma UnreachableStopsNothing(core: Core, uuid: SessionId, sniffer: Sniffer, lines: Option<string>, columns: Option<string>,
                                remote: Remote, local: Local, prog: Run, host: string, port: PortArg)
    requires PortNumber(port).Ok?
    ensures ProxySession(core, uuid, sniffer, lines, columns, false, remote, local, prog, host, port) ==
            Gateway(Ended(Raised(SocketError)), [TcpConnect(host, PortNumber(port).value)])
  {
  }

  /** The `finally` of `main`: `stop_sniffer` ends every session that is
    * not still waiting. */
  lemma ServedStopsLast(sniffer: Sniffer, end: Effect, user: string, size: ScreenSize,
                        remote: Remote, local: Local, prog: Run)
    requires Served(sniffer, end, user, size, remote, local, prog).outcome != Ended(Blocked)
    ensures var e := Served(sniffer, end, user, size, remote, local, prog).effects;
            var stop := Notify([sniffer], Stop).effects;
            |e| >= |stop| && e[|e| - |stop|..] == stop
  {
    var pre := SessionRun([sniffer], end, user, size, remote, local, prog).effects;
    var stop := Notify([sniffer], Stop).effects;
    assert (pre + stop)[|pre|..] == stop;
  }

  /** Once the connection is made, `stop_sniffer` runs last, whatever the
    * session did, unless the relay is still waiting. */
  lemma StopsSnifferLast(core: Core, uuid: SessionId, sniffer: Sniffer, lines: Option<string>, columns: Option<string>,
                         remote: Remote, local: Local, prog: Run, host: string, port: PortArg)
    requires PortNumber(port).Ok?
    requires ProxySession(core, uuid, sniffer, lines, columns, true, remote, local, prog, host, port).outcome != Ended(Blocked)
    ensures var e := ProxySession(core, uuid, sniffer, lines, columns, true, remote, local, prog, host, port).effects;
            var stop := Notify([sniffer], Stop).effects;
            |e| >= |stop| + 1 && e[|e| - |stop|..] == stop
  {
    var end, size := EndOf(uuid, core, host), ProxyScreenSize(lines, columns);
    var served := Served(sniffer, end, core.user.name, size, remote, local, prog).effects;
    var connect := [TcpConnect(host, PortNumber(port).value)];
    ServedStopsLast(sniffer, end, core.user.name, size, remote, local, prog);
    SuffixOfAppend(connect, served, Notify([sniffer], Stop).effects);
  }

  lemma SuffixOfAppend<T>(a: seq<T>, b: seq<T>, tail: seq<T>)
    requires |b| >= |tail| && b[|b| - |tail|..] == tail
    ensures (a + b)[|a + b| - |tail|..] == tail
  {
    assert (a + b)[|a + b| - |tail|..] == b[|b| - |tail|..];
  }

  /** The core's `session_end_callback` runs twice for a proxy session that
    * ends normally, once for one that failed after the transport started,
    * and not at all while the relay is waiting. */
  lemma ProxyEndCallbacks(core: Core, uuid: SessionId, sniffer: Sniffer, lines: Option<string>, columns: Option<string>,
                          remote: Remote, local: Local, prog: Run, host: string, port: PortArg)
    requires PortNumber(port).Ok?
    requires remote.transportUp && (local.agentKeys != [] || local.keyFile.Some?) && ProgramLike(prog, local)
    ensures var e := ProxySession(core, uuid, sniffer, lines, columns, true, remote, local, prog, host, port).effects;
            var client := ClientRun([sniffer], EndOf(uuid, core, host), core.user.name, Key(ChosenKey(local)),
                                    ProxyScreenSize(lines, columns), remote, local, prog);
            Count(e, EndOf(uuid, core, host)) == (match client.exit case Returned => 2 case Raised(_) => 1 case Blocked => 0)
  {
    var end, p := EndOf(uuid, core, host), PortNumber(port).value;
    var client := ProxyShape(core, uuid, sniffer, lines, columns, remote, local, prog, host, port, p);
    var e := Pieces(host, p, local.agentKeys != [], client.effects, sniffer, client.exit != Blocked);
    CountAround(host, p, local.agentKeys != [], client.effects, sniffer, client.exit != Blocked, end);
    EndCallbacks([sniffer], end, core.user.name, Key(ChosenKey(local)), ProxyScreenSize(lines, columns), remote, local, prog);
    assert Count(e, end) == Count(client.effects, end);
  }

  /** The pty requests of the whole run are the client's. */
  lemma PtyInPieces(host: string, p: int, agentFirst: bool, client: seq<Effect>, sniffer: Sniffer, stopped: bool, pty: Effect)
    requires pty in client && forall i :: 0 <= i < |client| && client[i].RequestPty? ==> client[i] == pty
    ensures var e := Pieces(host, p, agentFirst, client, sniffer, stopped);
            pty in e && forall i :: 0 <= i < |e| && e[i].RequestPty? ==> e[i] == pty
  {
    var e := Pieces(host, p, agentFirst, client, sniffer, stopped);
    AroundClient(host, p, agentFirst, sniffer, stopped);
    forall i | 0 <= i < |e| && e[i].RequestPty?
      ensures e[i] == pty
    {
      assert e[i] in client;
    }
  }

  /** The intended pseudo-terminal request: LINES wide and COLUMNS high,
    * with 80 and 300 when they are unset, and never another size. As
    * written only the defaults reach the remote side: a value from the
    * environment is a `str`, which `get_pty` cannot pack
    * (`ClientSpec.StartInnerAsWritten`). */
  lemma PtyFromEnvironment(core: Core, uuid: SessionId, sniffer: Sniffer, lines: Option<string>, columns: Option<string>,
                           remote: Remote, local: Local, prog: Run, host: string, port: PortArg)
    requires PortNumber(port).Ok? && (local.agentKeys != [] || local.keyFile.Some?) && ProgramLike(prog, local)
    requires ReachesChannel(core.user.name, Key(ChosenKey(local)), remote, local)
    ensures var e := ProxySession(core, uuid, sniffer, lines, columns, true, remote, local, prog, host, port).effects;
            var pty := RequestPty(if lines.Some? then FromEnv(lines.value) else Default(80),
                                  if columns.Some? then FromEnv(columns.value) else Default(300));
            pty in e && forall i :: 0 <= i < |e| && e[i].RequestPty? ==> e[i] == pty
  {
    var p := PortNumber(port).value;
    var client := ProxyShape(core, uuid, sniffer, lines, columns, remote, local, prog, host, port, p);
    var size := ProxyScreenSize(lines, columns);
    PtyRequestedAsGiven([sniffer], EndOf(uuid, core, host), core.user.name, Key(ChosenKey(local)), size, remote, local, prog);
    PtyInPieces(host, p, local.agentKeys != [], client.effects, sniffer, client.exit != Blocked, RequestPty(size.first, size.second));
  }

  /** The commands the whole run starts are the client's. */
  lemma ExecInPieces(host: string, p: int, agentFirst: bool, client: seq<Effect>, sniffer: Sniffer, stopped: bool, started: Effect)
    requires started.ExecCommand? && started in client
    requires forall i :: 0 <= i < |client| && (client[i].ExecCommand? || client[i] == InvokeShell) ==> client[i] == started
    ensures var e := Pieces(host, p, agentFirst, client, sniffer, stopped);
            started in e && InvokeShell !in e && forall i :: 0 <= i < |e| && e[i].ExecCommand? ==> e[i] == started
  {
    var e := Pieces(host, p, agentFirst, client, sniffer, stopped);
    AroundClient(host, p, agentFirst, sniffer, stopped);
    forall i | 0 <= i < |e| && (e[i].ExecCommand? || e[i] == InvokeShell)
      ensures e[i] == started
    {
      assert e[i] in client;
    }
  }

  /** The proxy execs the command the user typed, `host=` and `port=` terms
    * included, and never opens a shell on the target. */
  lemma ExecsOriginalCommand(core: Core, uuid: SessionId, sniffer: Sniffer, lines: Option<string>, columns: Option<string>,
                             remote: Remote, local: Local, prog: Run, host: string, port: PortArg)
    requires PortNumber(port).Ok? && (local.agentKeys != [] || local.keyFile.Some?) && ProgramLike(prog, local)
    requires local.originalCommand.Some? && Notify([sniffer], SetLogs).failure == None
    requires ReachesChannel(core.user.name, Key(ChosenKey(local)), remote, local)
    ensures var e := ProxySession(core, uuid, sniffer, lines, columns, true, remote, local, prog, host, port).effects;
            ExecCommand(local.originalCommand.value) in e && InvokeShell !in e &&
            forall i :: 0 <= i < |e| && e[i].ExecCommand? ==> e[i] == ExecCommand(local.originalCommand.value)
  {
    var p := PortNumber(port).value;
    var client := ProxyShape(core, uuid, sniffer, lines, columns, remote, local, prog, host, port, p);
    ShellOrCommand([sniffer], EndOf(uuid, core, host), core.user.name, Key(ChosenKey(local)),
                   ProxyScreenSize(lines, columns), remote, local, prog);
    ExecInPieces(host, p, local.agentKeys != [], client.effects, sniffer, client.exit != Blocked, Started(local));
  }

  /** A `host=` command is always there to exec. */
  lemma ProxyHasCommand(original: Option<string>)
    requires CommandFor(original).ProxyTo?
    ensures original.Some?
  {
  }
}
