/** `Client` and `SSHClient` of SSHClient.py as one class: the sniffer list
  * of the base class and the socket, channel and size of the SSH client.
  * Each method is proved against the functions of `Interactive` and
  * `ClientSpec`. */
module SSHClientModel {
  import opened Basics
  import opened Errors
  import opened Aker
  import opened Trace
  import opened Interactive
  import opened ClientSpec
  import opened SessionBase

  /** The client's `_socket`: none yet, or a socket aimed at a target,
    * connected or not, open or closed. */
  datatype SocketState = NoSocket | Socket(host: string, port: int, connected: bool, open: bool)

  /** The client's `channel`: none yet, granted, or closed. */
  datatype ChannelState = NoChannel | Opened | ChannelClosed

  /** The relay from event `i` on: one iteration, then the rest unless it
    * halted. */
  lemma RelayUnfold(sn: seq<Sniffer>, script: seq<Event>, i: nat)
    requires i < |script|
    ensures var st := Step(sn, script[i]);
            Relay(sn, script[i..]) ==
              if st.flow.Halt? then Run(st.effects, st.flow.exit)
              else Run(st.effects + Relay(sn, script[i + 1..]).effects, Relay(sn, script[i + 1..]).exit)
  {
    assert script[i..][0] == script[i] && script[i..][1..] == script[i + 1..];
  }

  function Closed(s: SocketState): SocketState {
    if s.Socket? then s.(open := false) else s
  }

  class SSHClient {
    const session: Session
    var sniffers: seq<Sniffer>
    var socket: SocketState
    var channel: ChannelState
    var size: Option<ScreenSize>

    constructor (session: Session)
      ensures this.session == session
      ensures sniffers == [] && socket == NoSocket && channel == NoChannel && size == None
    {
      this.session := session;
      sniffers := [];
      socket := NoSocket;
      channel := NoChannel;
      size := None;
    }

    /** `attach_sniffer`: the sniffer joins the end of the list. */
    method AttachSniffer(s: Sniffer)
      modifies this
      ensures sniffers == old(sniffers) + [s]
      ensures socket == old(socket) && channel == old(channel) && size == old(size)
    {
      sniffers := sniffers + [s];
    }

    /** `attach`: the same as `attach_sniffer`. */
    method Attach(s: Sniffer)
      modifies this
      ensures sniffers == old(sniffers) + [s]
      ensures socket == old(socket) && channel == old(channel) && size == old(size)
    {
      AttachSniffer(s);
    }

    /** The loop `for sniffer in self.sniffers: sniffer.<hook>(...)` that the
      * class repeats for every hook. */
    method Broadcast(hook: Hook) returns (failure: Option<Fault>)
      modifies session.process
      ensures session.process.trace == old(session.process.trace) + Notify(sniffers, hook).effects
      ensures failure == Notify(sniffers, hook).failure
      ensures session.process.terminal == old(session.process.terminal)
    {
      var i := 0;
      while i < |sniffers|
        invariant 0 <= i <= |sniffers|
        invariant session.process.trace + Notify(sniffers[i..], hook).effects ==
                  old(session.process.trace) + Notify(sniffers, hook).effects
        invariant Notify(sniffers[i..], hook).failure == Notify(sniffers, hook).failure
        invariant session.process.terminal == old(session.process.terminal)
      {
        var s := sniffers[i];
        assert sniffers[i..][0] == s && sniffers[i..][1..] == sniffers[i + 1..];
        var k := KindOf(hook);
        if k in s.lacks {
          if k == SetLogsHook {
            i := i + 1;
            continue;
          }
          return Some(MissingHook(s.id));
        }
        ghost var before := session.process.trace;
        session.process.trace := session.process.trace + [Call(s.id, hook)];
        if k in s.raises {
          return Some(SnifferRaised(s.id));
        }
        Associative(before, [Call(s.id, hook)], Notify(sniffers[i + 1..], hook).effects);
        i := i + 1;
      }
      assert sniffers[i..] == [];
      return None;
    }

    /** `stop_sniffer`. */
    method StopSniffer() returns (failure: Option<Fault>)
      modifies session.process
      ensures session.process.trace == old(session.process.trace) + Notify(sniffers, Stop).effects
      ensures failure == Notify(sniffers, Stop).failure
      ensures session.process.terminal == old(session.process.terminal)
    {
      failure := Broadcast(Stop);
    }

    /** `_set_sniffer_logs`: an AttributeError is swallowed per sniffer. */
    method SetSnifferLogs() returns (failure: Option<Fault>)
      modifies session.process
      ensures session.process.trace == old(session.process.trace) + Notify(sniffers, SetLogs).effects
      ensures failure == Notify(sniffers, SetLogs).failure
      ensures session.process.terminal == old(session.process.terminal)
    {
      failure := Broadcast(SetLogs);
    }

    /** `connect(ip, port, size)`: remembers the size, creates the socket
      * with TIME_OUT and connects it; `reachable` is whether the target
      * accepts the TCP connection within the timeout. */
    method Connect(ip: string, port: int, size: ScreenSize, reachable: bool) returns (failure: Option<Fault>)
      modifies this, session.process
      ensures this.size == Some(size) && socket == Socket(ip, port, reachable, true)
      ensures sniffers == old(sniffers) && channel == old(channel)
      ensures session.process.trace == old(session.process.trace) + [TcpConnect(ip, port)]
      ensures session.process.terminal == old(session.process.terminal)
      ensures failure == (if reachable then None else Some(SocketError))
    {
      this.size := Some(size);
      socket := Socket(ip, port, false, true);
      session.process.trace := session.process.trace + [TcpConnect(ip, port)];
      if !reachable {
        return Some(SocketError);
      }
      socket := socket.(connected := true);
      return None;
    }

    /** `sigwinch`, with the console size `get_console_dimensions` read. */
    method Sigwinch(columns: int, lines: int) returns (failure: Option<Fault>)
      modifies session.process
      ensures session.process.trace == old(session.process.trace) + SigwinchRun(sniffers, columns, lines).effects
      ensures failure == SigwinchRun(sniffers, columns, lines).failure
      ensures session.process.terminal == old(session.process.terminal)
    {
      session.process.trace := session.process.trace + [ResizePty(columns, lines)];
      failure := Broadcast(Hook.Sigwinch(columns, lines));
    }

    /** The `if self.channel in r` branch of the relay loop. */
    method ChannelBranch(c: Option<ChannelRead>) returns (flow: Flow)
      modifies session.process
      ensures session.process.trace == old(session.process.trace) + ChannelPart(sniffers, c).effects
      ensures flow == ChannelPart(sniffers, c).flow
      ensures session.process.terminal == old(session.process.terminal)
    {
      match c
      case None =>
        return Proceed;
      case Some(RecvTimeout) =>
        return Proceed;
      case Some(RecvFailed) =>
        return Halt(Raised(ChannelRecvFailed));
      case Some(Data(x, w)) =>
        if |x| == 0 {
          return Halt(Returned);
        }
        var f := Broadcast(ChannelFilter(x));
        if f.Some? {
          return Halt(Raised(f.value));
        }
        match w
        case Wrote(k) =>
          session.process.trace := session.process.trace + [StdoutWrite(x[..Min(k, |x|)])];
          return Proceed;
        case WouldBlock =>
          return NextRound;
        case WriteFailed =>
          return Proceed;
    }

    /** The `if sys.stdin in r` branch of the relay loop. */
    method StdinBranch(s: Option<StdinRead>) returns (flow: Flow)
      modifies session.process
      ensures session.process.trace == old(session.process.trace) + StdinPart(sniffers, s).effects
      ensures flow == StdinPart(sniffers, s).flow
      ensures session.process.terminal == old(session.process.terminal)
    {
      match s
      case None =>
        return Proceed;
      case Some(ReadFailed) =>
        return Halt(Raised(StdinReadFailed));
      case Some(Input(b, send)) =>
        var f := Broadcast(StdinFilter(b));
        if f.Some? {
          return Halt(Raised(f.value));
        }
        if send == SendRaised {
          return Halt(Raised(ChannelSendFailed));
        }
        session.process.trace := session.process.trace + [ChannelSend(b)];
        return Proceed;
    }

    /** One iteration of the `while True` loop of `interactive_shell`. */
    method Iteration(ev: Event) returns (flow: Flow)
      modifies session.process
      ensures session.process.trace == old(session.process.trace) + Step(sniffers, ev).effects
      ensures flow == Step(sniffers, ev).flow
      ensures session.process.terminal == old(session.process.terminal)
    {
      match ev {
        case Winch(columns, lines) =>
          var f := Sigwinch(columns, lines);
          flow := if f.Some? then Halt(Raised(f.value)) else Proceed;
        case Ready(c, s) =>
          flow := ChannelBranch(c);
          if flow == NextRound {
            flow := Proceed;
          } else if flow == Proceed {
            flow := StdinBranch(s);
          }
      }
    }

    /** The `while True` loop of `interactive_shell`. */
    method RelayLoop(script: seq<Event>) returns (exit: Exit)
      modifies session.process
      ensures session.process.trace == old(session.process.trace) + Relay(sniffers, script).effects
      ensures exit == Relay(sniffers, script).exit
      ensures session.process.terminal == old(session.process.terminal)
    {
      var i := 0;
      while i < |script|
        invariant 0 <= i <= |script|
        invariant session.process.trace + Relay(sniffers, script[i..]).effects ==
                  old(session.process.trace) + Relay(sniffers, script).effects
        invariant Relay(sniffers, script[i..]).exit == Relay(sniffers, script).exit
        invariant session.process.terminal == old(session.process.terminal)
      {
        ghost var before := session.process.trace;
        ghost var st := Step(sniffers, script[i]);
        ghost var rest := Relay(sniffers, script[i + 1..]);
        RelayUnfold(sniffers, script, i);
        var flow := Iteration(script[i]);
        assert session.process.trace == before + st.effects;
        if flow.Halt? {
          return flow.exit;
        }
        assert Relay(sniffers, script[i..]).effects == st.effects + rest.effects;
        Associative(before, st.effects, rest.effects);
        i := i + 1;
      }
      assert script[i..] == [];
      return Blocked;
    }

    /** `interactive_shell`: the terminal's attributes are saved, raw mode
      * is set for the loop, and the `finally` restores them however the
      * loop ended. */
    method InteractiveShell(stdinIsTty: bool, script: seq<Event>) returns (exit: Exit)
      modifies session.process
      ensures var r := Shell(sniffers, stdinIsTty, old(session.process.terminal), script);
              session.process.trace == old(session.process.trace) + r.effects && exit == r.exit
      ensures session.process.terminal == (if exit == Blocked then RawMode else old(session.process.terminal))
    {
      if !stdinIsTty {
        return Raised(NotATerminal);
      }
      var saved := session.process.terminal;
      ghost var t0 := session.process.trace;
      session.process.trace := session.process.trace + [TerminalRaw];
      session.process.terminal := RawMode;
      exit := RelayLoop(script);
      ghost var relayed := Relay(sniffers, script).effects;
      Associative(t0, [TerminalRaw], relayed);
      if exit != Blocked {
        session.process.trace := session.process.trace + [TerminalRestore(saved)];
        session.process.terminal := saved;
        Associative(t0, [TerminalRaw] + relayed, [TerminalRestore(saved)]);
      }
    }

    /** `run_command`: the command goes to the sniffers, then the shell. */
    method RunCommand(command: string, stdinIsTty: bool, script: seq<Event>) returns (exit: Exit)
      modifies session.process
      ensures var r := Interactive.RunCommand(sniffers, command, stdinIsTty, old(session.process.terminal), script);
              session.process.trace == old(session.process.trace) + r.effects && exit == r.exit
      ensures session.process.terminal == (if exit == Blocked then RawMode else old(session.process.terminal))
    {
      ghost var t0 := session.process.trace;
      ghost var saved := session.process.terminal;
      var f := Broadcast(StdinFilter(command));
      if f.Some? {
        return Raised(f.value);
      }
      exit := InteractiveShell(stdinIsTty, script);
      Associative(t0, Notify(sniffers, StdinFilter(command)).effects, Shell(sniffers, stdinIsTty, saved, script).effects);
    }

    /** The program half of `_start_session`: `invoke_shell` and the
      * interactive shell, or `exec_command` and `run_command`. */
    method RunProgram(local: Local, script: seq<Event>) returns (exit: Exit)
      modifies session.process
      ensures var r := Program(sniffers, local, old(session.process.terminal), script);
              session.process.trace == old(session.process.trace) + r.effects && exit == r.exit
      ensures session.process.terminal == (if exit == Blocked then RawMode else old(session.process.terminal))
    {
      ghost var t0 := session.process.trace;
      ghost var saved := session.process.terminal;
      match local.originalCommand {
        case None =>
          session.process.trace := session.process.trace + [InvokeShell];
          exit := InteractiveShell(local.stdinIsTty, script);
          Associative(t0, [InvokeShell], Shell(sniffers, local.stdinIsTty, saved, script).effects);
        case Some(command) =>
          session.process.trace := session.process.trace + [ExecCommand(command)];
          exit := RunCommand(command, local.stdinIsTty, script);
          Associative(t0, [ExecCommand(command)],
                      Interactive.RunCommand(sniffers, command, local.stdinIsTty, saved, script).effects);
      }
    }

    /** `close_session` through the core, `transport.close()`, `socket.close()`. */
    method FinishSession()
      modifies this, session.process
      ensures sniffers == old(sniffers) && size == old(size) && channel == old(channel)
      ensures socket == Closed(old(socket))
      ensures session.process.trace == old(session.process.trace) + Finish(EndOf(session.uuid, session.core, session.host))
      ensures session.process.terminal == old(session.process.terminal)
    {
      session.CloseSession();
      session.process.trace := session.process.trace + [TransportClose, SocketClose];
      socket := Closed(socket);
    }

    /** The channel is granted: request the pty with the size unpacked as
      * (columns, lines), then let the sniffers set up their logs. */
    method GrantChannel() returns (failure: Option<Fault>)
      requires size.Some?
      modifies this, session.process
      ensures sniffers == old(sniffers) && size == old(size) && socket == old(socket) && channel == Opened
      ensures session.process.trace == old(session.process.trace) +
                ([OpenChannel, RequestPty(size.value.first, size.value.second)] + Notify(sniffers, SetLogs).effects)
      ensures failure == Notify(sniffers, SetLogs).failure
      ensures session.process.terminal == old(session.process.terminal)
    {
      channel := Opened;
      ghost var t0 := session.process.trace;
      session.process.trace := session.process.trace + [OpenChannel, RequestPty(size.value.first, size.value.second)];
      failure := SetSnifferLogs();
      Associative(t0, [OpenChannel, RequestPty(size.value.first, size.value.second)], Notify(sniffers, SetLogs).effects);
    }

    /** After a normal return: `channel.close()`, then the first teardown. */
    method CloseAll()
      modifies this, session.process
      ensures sniffers == old(sniffers) && size == old(size) && channel == ChannelClosed
      ensures socket == Closed(old(socket))
      ensures session.process.trace == old(session.process.trace) +
                ([ChannelClose] + Finish(EndOf(session.uuid, session.core, session.host)))
      ensures session.process.terminal == old(session.process.terminal)
    {
      ghost var t0 := session.process.trace;
      session.process.trace := session.process.trace + [ChannelClose];
      channel := ChannelClosed;
      FinishSession();
      Associative(t0, [ChannelClose], Finish(EndOf(session.uuid, session.core, session.host)));
    }

    /** `_start_session(transport)`, on a transport that authenticated. */
    method StartInner(remote: Remote, local: Local) returns (exit: Exit)
      requires size.Some? && socket.Socket?
      modifies this, session.process
      ensures sniffers == old(sniffers) && size == old(size)
      ensures var r := ClientSpec.StartInner(sniffers, EndOf(session.uuid, session.core, session.host), size.value,
                                             remote, Program(sniffers, local, old(session.process.terminal), remote.events));
              session.process.trace == old(session.process.trace) + r.effects && exit == r.exit
      ensures channel == (if !remote.channelOpens then old(channel) else if exit == Returned then ChannelClosed else Opened)
      ensures socket == (if exit == Returned then Closed(old(socket)) else old(socket))
      ensures session.process.terminal == (if exit == Blocked then RawMode else old(session.process.terminal))
    {
      if !remote.channelOpens {
        // a refused channel leaves no trace: only an opened channel is recorded
        return Raised(ChannelOpenFailed);
      }
      ghost var t0 := session.process.trace;
      ghost var prog := Program(sniffers, local, session.process.terminal, remote.events);
      var f := GrantChannel();
      if f.Some? {
        return Raised(f.value);
      }
      ghost var granted := session.process.trace[|t0|..];
      assert session.process.trace == t0 + granted;
      exit := RunProgram(local, remote.events);
      Associative(t0, granted, prog.effects);
      if exit == Returned {
        CloseAll();
        ghost var close := [ChannelClose] + Finish(EndOf(session.uuid, session.core, session.host));
        Associative(t0, granted + prog.effects, close);
        Associative(granted + prog.effects, [ChannelClose], Finish(EndOf(session.uuid, session.core, session.host)));
      }
    }

    /** The authentication of `start_session`: the password, or the key and,
      * when the server rejects it, a password typed at the prompt. */
    method Login(user: string, secret: Secret, remote: Remote, typed: string) returns (failure: Option<Fault>)
      modifies session.process
      ensures var a := Authenticate(user, secret, remote, typed);
              session.process.trace == old(session.process.trace) + a.effects && failure == a.failure
      ensures session.process.terminal == old(session.process.terminal)
    {
      match secret {
        case Password(p) =>
          session.process.trace := session.process.trace + [AuthPassword(user, p)];
          failure := ReplyFault(remote.passwordReply);
        case Key(k) =>
          session.process.trace := session.process.trace + [AuthPublicKey(user, k)];
          if remote.publicKeyReply == Rejected {
            session.process.trace := session.process.trace + [PasswordPrompt, AuthPassword(user, typed)];
            failure := ReplyFault(remote.passwordReply);
          } else {
            failure := ReplyFault(remote.publicKeyReply);
          }
      }
    }

    /** `start_session(user, auth_secret)`: start the transport, authenticate,
      * run `_start_session`, and in the `finally` report the end to the core
      * and close transport and socket. */
    method StartSession(user: string, secret: Secret, remote: Remote, local: Local) returns (exit: Exit)
      requires size.Some? && socket.Socket? && socket.connected && socket.open
      modifies this, session.process
      ensures sniffers == old(sniffers) && size == old(size)
      ensures var r := ClientRun(sniffers, EndOf(session.uuid, session.core, session.host), user, secret, size.value,
                                 remote, local, Program(sniffers, local, old(session.process.terminal), remote.events));
              session.process.trace == old(session.process.trace) + r.effects && exit == r.exit
      ensures channel == (if ReachesChannel(user, secret, remote, local)
                          then (if exit == Returned then ChannelClosed else Opened) else old(channel))
      ensures socket == (if remote.transportUp && exit != Blocked then Closed(old(socket)) else old(socket))
      ensures session.process.terminal == (if exit == Blocked then RawMode else old(session.process.terminal))
    {
      if !remote.transportUp {
        return Raised(TransportError);
      }
      ghost var t0 := session.process.trace;
      ghost var end := EndOf(session.uuid, session.core, session.host);
      ghost var a := Authenticate(user, secret, remote, local.typedPassword);
      ghost var inner := ClientSpec.StartInner(sniffers, end, size.value, remote,
                                               Program(sniffers, local, session.process.terminal, remote.events));
      var failure := Login(user, secret, remote, local.typedPassword);
      ghost var body: seq<Effect>;
      if failure.Some? {
        exit := Raised(failure.value);
        body := a.effects;
      } else {
        exit := StartInner(remote, local);
        body := a.effects + inner.effects;
        Associative(t0, a.effects, inner.effects);
      }
      if exit != Blocked {
        FinishSession();
        Associative(t0, body, Finish(end));
      }
    }
  }
}
