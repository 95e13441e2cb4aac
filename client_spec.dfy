/** What `SSHClient.start_session` and `_start_session` do, as functions of
  * the world they meet: the target host (`Remote`) and the gateway process's
  * own surroundings (`Local`). The class `SSHClientModel.SSHClient` is
  * proved against these functions. */
module ClientSpec {
  import opened Basics
  import opened Errors
  import opened Aker
  import opened Trace
  import opened Interactive

  /** How the target answers one authentication request: accepted, rejected
    * (AuthenticationException), or a protocol failure (SSHException). */
  datatype AuthReply = Accepted | Rejected | Broken

  /** The target host: whether the transport handshake completes, how it
    * answers public-key and password authentication, whether it grants a
    * session channel, and the script the relay meets. */
  datatype Remote = Remote(
    transportUp: bool,
    publicKeyReply: AuthReply,
    passwordReply: AuthReply,
    channelOpens: bool,
    events: seq<Event>)

  /** The gateway process's surroundings: SSH_ORIGINAL_COMMAND, whether stdin
    * is a terminal, what `getpass` reads, the keys the agent offers and the
    * outcome of loading ~/.ssh/id_rsa. */
  datatype Local = Local(
    originalCommand: Option<string>,
    stdinIsTty: bool,
    typedPassword: string,
    agentKeys: seq<PrivateKey>,
    keyFile: Option<PrivateKey>)

  /** `auth_secret`: a `basestring` password, or anything else, used as a key. */
  datatype Secret = Password(text: string) | Key(key: PrivateKey)

  function ReplyFault(a: AuthReply): Option<Fault> {
    match a
    case Accepted => None
    case Rejected => Some(AuthenticationFailed)
    case Broken => Some(SSHError)
  }

  /** The authentication block of `start_session`: a password is tried
    * alone; a key is tried first, and only its rejection falls back to a
    * prompted password. A protocol failure during key authentication is
    * not caught. */
  function Authenticate(user: string, secret: Secret, remote: Remote, typed: string): (r: Notified)
    ensures |r.effects| >= 1
    ensures r.effects[0] == (if secret.Key? then AuthPublicKey(user, secret.key) else AuthPassword(user, secret.text))
    ensures PasswordPrompt in r.effects <==> secret.Key? && remote.publicKeyReply == Rejected
    ensures PasswordPrompt in r.effects ==> r.effects == [r.effects[0], PasswordPrompt, AuthPassword(user, typed)]
    ensures PasswordPrompt !in r.effects ==> r.effects == [r.effects[0]]
    ensures (forall k :: AuthPublicKey(user, k) !in r.effects) <==> secret.Password?
    ensures r.failure == None <==>
              if secret.Password? then remote.passwordReply == Accepted
              else remote.publicKeyReply == Accepted ||
                   (remote.publicKeyReply == Rejected && remote.passwordReply == Accepted)
  {
    match secret
    case Password(p) => Notified([AuthPassword(user, p)], ReplyFault(remote.passwordReply))
    case Key(k) =>
      if remote.publicKeyReply == Rejected then
        Notified([AuthPublicKey(user, k), PasswordPrompt, AuthPassword(user, typed)], ReplyFault(remote.passwordReply))
      else Notified([AuthPublicKey(user, k)], ReplyFault(remote.publicKeyReply))
  }

  /** `close_session`, `transport.close()`, `socket.close()`. */
  function Finish(end: Effect): seq<Effect> {
    [end, TransportClose, SocketClose]
  }

  /** `_start_session`: open the channel, request the pty with the size
    * unpacked as (columns, lines), let sniffers set up their logs, then run
    * the shell (`SSH_ORIGINAL_COMMAND` unset) or execute that command; only
    * a normal return reaches the channel close and the first teardown.
    * `prog` is what that program does on the channel; the client runs
    * `Program` there, and the lemmas below hold for every `ProgramLike`
    * outcome. Opening the channel is recorded only when it succeeds,
    * unlike the TCP connect, which is recorded as an attempt. The pty is requested with whatever size was stored, which is
    * what the program intends; `StartInnerAsWritten` is what paramiko makes
    * of a size taken from the environment. */
  function StartInner(sn: seq<Sniffer>, end: Effect, size: ScreenSize, remote: Remote, prog: Run): Run {
    if !remote.channelOpens then Run([], Raised(ChannelOpenFailed))
    else
      var logs := Notify(sn, SetLogs);
      var granted := [OpenChannel, RequestPty(size.first, size.second)] + logs.effects;
      if logs.failure.Some? then Run(granted, Raised(logs.failure.value))
      else
        if prog.exit == Returned then Run(granted + prog.effects + [ChannelClose] + Finish(end), Returned)
        else Run(granted + prog.effects, prog.exit)
  }

  /** paramiko packs each `get_pty` dimension with `struct.pack('>I', n)`,
    * which takes integers only. A dimension read from the environment is a
    * `str`, so only the defaults can be packed. */
  predicate PtyPackable(size: ScreenSize) {
    size.first.Default? && size.second.Default?
  }

  /** `_start_session` as written: once the channel is open, a dimension from
    * the environment makes `get_pty` raise `struct.error` before anything is
    * sent, so no pty is requested, no sniffer sets its logs and no program
    * runs. With packable dimensions it is `StartInner`. */
  function StartInnerAsWritten(sn: seq<Sniffer>, end: Effect, size: ScreenSize, remote: Remote, prog: Run): (r: Run)
    ensures PtyPackable(size) || !remote.channelOpens ==> r == StartInner(sn, end, size, remote, prog)
  {
    if remote.channelOpens && !PtyPackable(size) then Run([OpenChannel], Raised(StructError))
    else StartInner(sn, end, size, remote, prog)
  }

  /** `start_session(user, auth_secret)`: a transport that fails to start
    * raises before the `try`; everything after it is followed by the
    * `finally`'s teardown, unless the relay is still waiting. */
  function ClientRun(sn: seq<Sniffer>, end: Effect, user: string, secret: Secret, size: ScreenSize,
                     remote: Remote, local: Local, prog: Run): Run {
    if !remote.transportUp then Run([], Raised(TransportError))
    else
      var auth := Authenticate(user, secret, remote, local.typedPassword);
      var body :=
        if auth.failure.Some? then Run(auth.effects, Raised(auth.failure.value))
        else
          var inner := StartInner(sn, end, size, remote, prog);
          Run(auth.effects + inner.effects, inner.exit);
      if body.exit == Blocked then body else Run(body.effects + Finish(end), body.exit)
  }

  /** The session reaches `transport.open_session()` and is granted a channel. */
  predicate ReachesChannel(user: string, secret: Secret, remote: Remote, local: Local) {
    remote.transportUp && Authenticate(user, secret, remote, local.typedPassword).failure == None &&
    remote.channelOpens
  }

  // ---------------------------------------------------------------- lemmas

  predicate NoTeardown(e: seq<Effect>) {
    forall i :: 0 <= i < |e| ==> !Teardown(e[i])
  }

  lemma AuthNoTeardown(user: string, secret: Secret, remote: Remote, typed: string)
    ensures NoTeardown(Authenticate(user, secret, remote, typed).effects)
  {
  }

  lemma GrantedNoTeardown(sn: seq<Sniffer>, size: ScreenSize)
    ensures NoTeardown([OpenChannel, RequestPty(size.first, size.second)] + Notify(sn, SetLogs).effects)
  {
  }

  lemma ProgramNoTeardown(prog: Run, local: Local)
    requires ProgramLike(prog, local)
    ensures NoTeardown(prog.effects)
  {
  }

  lemma NoTeardownAppend(a: seq<Effect>, b: seq<Effect>)
    requires NoTeardown(a) && NoTeardown(b)
    ensures NoTeardown(a + b)
  {
  }

  /** Teardown effects before `tail` add nothing to their count. */
  lemma NoTeardownCount(pre: seq<Effect>, tail: seq<Effect>, y: Effect)
    requires NoTeardown(pre) && Teardown(y)
    ensures Count(pre + tail, y) == Count(tail, y)
  {
    assert y !in pre;
    assert multiset(pre + tail) == multiset(pre) + multiset(tail);
  }

  /** The program `_start_session` starts on the channel, with what it
    * does until it ends: the shell, or the command and `run_command`. */
  function Program(sn: seq<Sniffer>, local: Local, saved: TermMode, events: seq<Event>): Run {
    match local.originalCommand
    case None =>
      var sh := Shell(sn, local.stdinIsTty, saved, events);
      Run([InvokeShell] + sh.effects, sh.exit)
    case Some(cmd) =>
      var rc := RunCommand(sn, cmd, local.stdinIsTty, saved, events);
      Run([ExecCommand(cmd)] + rc.effects, rc.exit)
  }

  /** What every program `_start_session` can run does: it starts with the
    * request `Started(local)` names, and then only relays, resizes and
    * switches the terminal. */
  predicate ProgramLike(prog: Run, local: Local) {
    |prog.effects| >= 1 && prog.effects[0] == Started(local) &&
    forall i :: 1 <= i < |prog.effects| ==>
      DataPath(prog.effects[i]) || prog.effects[i] == TerminalRaw || prog.effects[i].TerminalRestore?
  }

  lemma ProgramEffects(sn: seq<Sniffer>, local: Local, saved: TermMode, events: seq<Event>)
    ensures ProgramLike(Program(sn, local, saved, events), local)
  {
    RelayDataPath(sn, events);
    if local.originalCommand.Some? {
      NotifyDataPath(sn, StdinFilter(local.originalCommand.value));
    }
  }

  /** The anatomy of `_start_session`: what the granted channel was set
    * up with, the program's effects, and the close a normal return makes. */
  lemma InnerShape(sn: seq<Sniffer>, end: Effect, size: ScreenSize, remote: Remote, prog: Run)
      returns (granted: seq<Effect>, body: seq<Effect>, close: seq<Effect>)
    ensures var r := StartInner(sn, end, size, remote, prog);
            r.effects == granted + body + close &&
            close == (if r.exit == Returned then [ChannelClose] + Finish(end) else [])
    ensures !remote.channelOpens ==> granted == [] && body == []
    ensures remote.channelOpens ==> granted == [OpenChannel, RequestPty(size.first, size.second)] + Notify(sn, SetLogs).effects
    ensures remote.channelOpens && Notify(sn, SetLogs).failure == None ==> body == prog.effects
    ensures Notify(sn, SetLogs).failure != None ==> body == []
  {
    granted, body, close := [], [], [];
    if remote.channelOpens {
      var logs := Notify(sn, SetLogs);
      granted := [OpenChannel, RequestPty(size.first, size.second)] + logs.effects;
      if logs.failure.None? {
        body := prog.effects;
        if prog.exit == Returned {
          close := [ChannelClose] + Finish(end);
          Associative(granted + body, [ChannelClose], Finish(end));
        }
      }
    }
  }

  /** The anatomy of a run whose transport started: the authentication
    * exchange, what the granted channel was set up with, the program's
    * effects, and the teardown the exit calls for. */
  lemma ClientShape(sn: seq<Sniffer>, end: Effect, user: string, secret: Secret, size: ScreenSize,
                    remote: Remote, local: Local, prog: Run)
      returns (auth: seq<Effect>, granted: seq<Effect>, body: seq<Effect>, tail: seq<Effect>)
    requires remote.transportUp
    ensures var r := ClientRun(sn, end, user, secret, size, remote, local, prog);
            r.effects == auth + granted + body + tail &&
            tail == (match r.exit
                     case Blocked => []
                     case Returned => [ChannelClose] + Finish(end) + Finish(end)
                     case Raised(_) => Finish(end))
    ensures auth == Authenticate(user, secret, remote, local.typedPassword).effects
    ensures !ReachesChannel(user, secret, remote, local) ==> granted == [] && body == []
    ensures ReachesChannel(user, secret, remote, local) ==>
              granted == [OpenChannel, RequestPty(size.first, size.second)] + Notify(sn, SetLogs).effects
    ensures ReachesChannel(user, secret, remote, local) && Notify(sn, SetLogs).failure == None ==>
              body == prog.effects
    ensures Notify(sn, SetLogs).failure != None ==> body == []
  {
    var a := Authenticate(user, secret, remote, local.typedPassword);
    auth := a.effects;
    if a.failure.Some? {
      granted, body, tail := [], [], Finish(end);
    } else {
      var close;
      granted, body, close := InnerShape(sn, end, size, remote, prog);
      var inner := StartInner(sn, end, size, remote, prog);
      assert inner.effects == granted + body + close;
      if inner.exit == Blocked {
        tail := close;
      } else {
        tail := close + Finish(end);
        Associative(auth, granted + body, close);
        Associative(auth + (granted + body), close, Finish(end));
        Associative(auth, granted, body);
      }
    }
  }

  /** The effects before the teardown never close anything. */
  lemma {:induction false} BeforeTeardown(sn: seq<Sniffer>, end: Effect, user: string, secret: Secret, size: ScreenSize,
                                           remote: Remote, local: Local, prog: Run)
      returns (pre: seq<Effect>, tail: seq<Effect>)
    requires ProgramLike(prog, local)
    requires remote.transportUp && end.SessionEnd?
    ensures var r := ClientRun(sn, end, user, secret, size, remote, local, prog);
            r.effects == pre + tail &&
            tail == (match r.exit
                     case Blocked => []
                     case Returned => [ChannelClose] + Finish(end) + Finish(end)
                     case Raised(_) => Finish(end)) &&
            Count(r.effects, end) == Count(tail, end) &&
            Count(r.effects, ChannelClose) == Count(tail, ChannelClose) &&
            Count(r.effects, SocketClose) == Count(tail, SocketClose)
  {
    var auth, granted, body;
    auth, granted, body, tail := ClientShape(sn, end, user, secret, size, remote, local, prog);
    pre := auth + granted + body;
    AuthNoTeardown(user, secret, remote, local.typedPassword);
    GrantedNoTeardown(sn, size);
    ProgramNoTeardown(prog, local);
    NoTeardownAppend(auth, granted);
    NoTeardownAppend(auth + granted, body);
    NoTeardownCount(pre, tail, end);
    NoTeardownCount(pre, tail, ChannelClose);
    NoTeardownCount(pre, tail, SocketClose);
  }

  /** How often the teardowns close the channel, call the core back and
    * close the socket. */
  lemma TailCounts(end: Effect)
    requires end.SessionEnd?
    ensures var twice := [ChannelClose] + Finish(end) + Finish(end);
            Count(twice, end) == 2 && Count(twice, ChannelClose) == 1 && Count(twice, SocketClose) == 2
    ensures Count(Finish(end), end) == 1 && Count(Finish(end), ChannelClose) == 0 && Count(Finish(end), SocketClose) == 1
  {
    var f := Finish(end);
    assert multiset(f) == multiset{end, TransportClose, SocketClose};
    CountAppend([ChannelClose], f, end);
    CountAppend([ChannelClose] + f, f, end);
    CountAppend([ChannelClose], f, ChannelClose);
    CountAppend([ChannelClose] + f, f, ChannelClose);
    CountAppend([ChannelClose], f, SocketClose);
    CountAppend([ChannelClose] + f, f, SocketClose);
  }

  lemma CountAppend(a: seq<Effect>, b: seq<Effect>, y: Effect)
    ensures Count(a + b, y) == Count(a, y) + Count(b, y)
  {
    assert multiset(a + b) == multiset(a) + multiset(b);
  }

  /** A transport that fails to start leaves no trace: nothing is closed
    * and the core hears nothing. */
  lemma TransportDownNoTeardown(sn: seq<Sniffer>, end: Effect, user: string, secret: Secret, size: ScreenSize,
                                remote: Remote, local: Local, prog: Run)
    requires !remote.transportUp
    ensures ClientRun(sn, end, user, secret, size, remote, local, prog) == Run([], Raised(TransportError))
  {
  }

  /** A normal return performs the teardown twice: `_start_session` closes
    * the channel, calls `close_session` and closes transport and socket,
    * and then the `finally` of `start_session` does the last three again —
    * so the core's `session_end_callback` runs twice for one session. */
  lemma ReturnTearsDownTwice(sn: seq<Sniffer>, end: Effect, user: string, secret: Secret, size: ScreenSize,
                             remote: Remote, local: Local, prog: Run)
    requires ProgramLike(prog, local)
    requires end.SessionEnd? && ClientRun(sn, end, user, secret, size, remote, local, prog).exit == Returned
    ensures var e := ClientRun(sn, end, user, secret, size, remote, local, prog).effects;
            |e| >= 7 && e[|e| - 7..] == [ChannelClose] + Finish(end) + Finish(end) &&
            Count(e, end) == 2 && Count(e, ChannelClose) == 1 && Count(e, SocketClose) == 2
  {
    var pre, tail := BeforeTeardown(sn, end, user, secret, size, remote, local, prog);
    TailCounts(end);
    assert (pre + tail)[|pre|..] == tail;
  }

  /** An exception after the transport started — failed authentication, a
    * refused channel, a sniffer or relay failure — leaves one teardown, from
    * the `finally`, and the channel is never closed. */
  lemma RaiseTearsDownOnce(sn: seq<Sniffer>, end: Effect, user: string, secret: Secret, size: ScreenSize,
                           remote: Remote, local: Local, prog: Run)
    requires ProgramLike(prog, local)
    requires end.SessionEnd? && remote.transportUp
    requires ClientRun(sn, end, user, secret, size, remote, local, prog).exit.Raised?
    ensures var e := ClientRun(sn, end, user, secret, size, remote, local, prog).effects;
            |e| >= 3 && e[|e| - 3..] == Finish(end) &&
            Count(e, end) == 1 && Count(e, ChannelClose) == 0 && Count(e, SocketClose) == 1
  {
    var pre, tail := BeforeTeardown(sn, end, user, secret, size, remote, local, prog);
    TailCounts(end);
    assert (pre + tail)[|pre|..] == tail;
  }

  /** While the relay is still waiting nothing has been closed. */
  lemma BlockedNoTeardown(sn: seq<Sniffer>, end: Effect, user: string, secret: Secret, size: ScreenSize,
                          remote: Remote, local: Local, prog: Run)
    requires ProgramLike(prog, local)
    requires end.SessionEnd? && remote.transportUp
    requires ClientRun(sn, end, user, secret, size, remote, local, prog).exit == Blocked
    ensures var e := ClientRun(sn, end, user, secret, size, remote, local, prog).effects;
            Count(e, end) == 0 && Count(e, ChannelClose) == 0 && Count(e, SocketClose) == 0
  {
    var pre, tail := BeforeTeardown(sn, end, user, secret, size, remote, local, prog);
    TailCounts(end);
    assert (pre + tail)[|pre|..] == tail;
  }

  /** The three cases above as one count of `session_end_callback` calls. */
  lemma EndCallbacks(sn: seq<Sniffer>, end: Effect, user: string, secret: Secret, size: ScreenSize,
                     remote: Remote, local: Local, prog: Run)
    requires ProgramLike(prog, local)
    requires end.SessionEnd? && remote.transportUp
    ensures var c := ClientRun(sn, end, user, secret, size, remote, local, prog);
            Count(c.effects, end) == (match c.exit case Returned => 2 case Raised(_) => 1 case Blocked => 0)
  {
    match ClientRun(sn, end, user, secret, size, remote, local, prog).exit {
      case Returned => ReturnTearsDownTwice(sn, end, user, secret, size, remote, local, prog);
      case Raised(_) => RaiseTearsDownOnce(sn, end, user, secret, size, remote, local, prog);
      case Blocked => BlockedNoTeardown(sn, end, user, secret, size, remote, local, prog);
    }
  }

  /** The effects the authentication exchange can produce. */
  predicate AuthEffect(x: Effect) {
    x.AuthPublicKey? || x.AuthPassword? || x == PasswordPrompt
  }

  /** The request that starts the program `_start_session` chooses. */
  function Started(local: Local): Effect {
    if local.originalCommand.None? then InvokeShell else ExecCommand(local.originalCommand.value)
  }

  /** Pieces of the kinds `ShapeKinds` gives. */
  predicate WellShaped(auth: seq<Effect>, granted: seq<Effect>, body: seq<Effect>, tail: seq<Effect>, size: ScreenSize) {
    (forall i :: 0 <= i < |auth| ==> AuthEffect(auth[i])) &&
    (forall i :: 2 <= i < |granted| ==> granted[i].Call?) &&
    (|granted| >= 2 ==> granted[..2] == [OpenChannel, RequestPty(size.first, size.second)]) &&
    (forall i :: 1 <= i < |body| ==> DataPath(body[i]) || body[i] == TerminalRaw || body[i].TerminalRestore?) &&
    (forall i :: 0 <= i < |tail| ==> Teardown(tail[i]))
  }

  /** The pieces `ClientShape` gives are of the kinds `WellShaped` allows. */
  lemma PiecesWellShaped(sn: seq<Sniffer>, end: Effect, size: ScreenSize, local: Local,
                         auth: seq<Effect>, granted: seq<Effect>, body: seq<Effect>, tail: seq<Effect>)
    requires end.SessionEnd?
    requires forall i :: 0 <= i < |auth| ==> AuthEffect(auth[i])
    requires granted == [] || granted == [OpenChannel, RequestPty(size.first, size.second)] + Notify(sn, SetLogs).effects
    requires body != [] ==> body[0] == Started(local)
    requires forall i :: 1 <= i < |body| ==> DataPath(body[i]) || body[i] == TerminalRaw || body[i].TerminalRestore?
    requires tail == [] || tail == [ChannelClose] + Finish(end) + Finish(end) || tail == Finish(end)
    ensures WellShaped(auth, granted, body, tail, size)
  {
    NotifyDataPath(sn, SetLogs);
    if granted != [] {
      assert granted[..2] == [OpenChannel, RequestPty(size.first, size.second)];
      forall i | 2 <= i < |granted|
        ensures granted[i].Call?
      {
        assert granted[i] == Notify(sn, SetLogs).effects[i - 2];
      }
    }
  }

  /** Every effect of a started run is of the kind its piece allows. */
  lemma ShapeKinds(sn: seq<Sniffer>, end: Effect, user: string, secret: Secret, size: ScreenSize,
                   remote: Remote, local: Local, prog: Run)
      returns (auth: seq<Effect>, granted: seq<Effect>, body: seq<Effect>, tail: seq<Effect>)
    requires ProgramLike(prog, local)
    requires remote.transportUp && end.SessionEnd?
    ensures ClientRun(sn, end, user, secret, size, remote, local, prog).effects == auth + granted + body + tail
    ensures WellShaped(auth, granted, body, tail, size)
    ensures auth == Authenticate(user, secret, remote, local.typedPassword).effects
    ensures ReachesChannel(user, secret, remote, local) <==> |granted| >= 2
    ensures !ReachesChannel(user, secret, remote, local) ==> granted == []
    ensures ReachesChannel(user, secret, remote, local) && Notify(sn, SetLogs).failure == None <==> body != []
    ensures body != [] ==> body == prog.effects && body[0] == Started(local)
  {
    auth, granted, body, tail := ClientShape(sn, end, user, secret, size, remote, local, prog);
    PiecesWellShaped(sn, end, size, local, auth, granted, body, tail);
  }

  lemma PtyInShape(auth: seq<Effect>, granted: seq<Effect>, body: seq<Effect>, tail: seq<Effect>, size: ScreenSize)
    requires WellShaped(auth, granted, body, tail, size) && |granted| >= 2
    requires body != [] ==> !body[0].RequestPty?
    ensures var e := auth + granted + body + tail;
            RequestPty(size.first, size.second) in e &&
            forall i :: 0 <= i < |e| && e[i].RequestPty? ==> e[i] == RequestPty(size.first, size.second)
  {
    var e := auth + granted + body + tail;
    assert e[|auth| + 1] == granted[1];
    forall i | 0 <= i < |e|
      ensures e[i].RequestPty? ==> e[i] == RequestPty(size.first, size.second)
    {
      if i < |auth| {
        assert e[i] == auth[i];
      } else if i < |auth| + |granted| {
        assert e[i] == granted[i - |auth|];
      } else if i < |auth| + |granted| + |body| {
        assert e[i] == body[i - |auth| - |granted|];
      } else {
        assert e[i] == tail[i - |auth| - |granted| - |body|];
      }
    }
  }

  /** `_start_session` unpacks the size it was given as (columns, lines) and
    * hands it to `get_pty` unchanged; no other pty request is made. */
  lemma PtyRequestedAsGiven(sn: seq<Sniffer>, end: Effect, user: string, secret: Secret, size: ScreenSize,
                            remote: Remote, local: Local, prog: Run)
    requires ProgramLike(prog, local)
    requires end.SessionEnd? && ReachesChannel(user, secret, remote, local)
    ensures var e := ClientRun(sn, end, user, secret, size, remote, local, prog).effects;
            RequestPty(size.first, size.second) in e &&
            forall i :: 0 <= i < |e| && e[i].RequestPty? ==> e[i] == RequestPty(size.first, size.second)
  {
    var auth, granted, body, tail := ShapeKinds(sn, end, user, secret, size, remote, local, prog);
    PtyInShape(auth, granted, body, tail, size);
  }

  lemma StartInShape(auth: seq<Effect>, granted: seq<Effect>, body: seq<Effect>, tail: seq<Effect>, size: ScreenSize, first: Effect)
    requires WellShaped(auth, granted, body, tail, size) && |granted| >= 2 && body != [] && body[0] == first
    ensures var e := auth + granted + body + tail;
            first in e &&
            forall i :: 0 <= i < |e| && (e[i].ExecCommand? || e[i] == InvokeShell) ==> i == |auth| + |granted| && e[i] == first
  {
    var e := auth + granted + body + tail;
    var k := |auth| + |granted|;
    assert e[k] == body[0];
    forall i | 0 <= i < |e|
      ensures e[i].ExecCommand? || e[i] == InvokeShell ==> i == k
    {
      if i < |auth| {
        assert e[i] == auth[i];
      } else if i < k {
        assert e[i] == granted[i - |auth|];
        if i - |auth| < 2 {
          assert granted[i - |auth|] == granted[..2][i - |auth|];
        }
      } else if i < k + |body| {
        assert e[i] == body[i - k];
      } else {
        assert e[i] == tail[i - k - |body|];
      }
    }
  }

  /** Which program runs on the target: a shell when SSH_ORIGINAL_COMMAND is
    * unset, otherwise that command verbatim, requested once; nothing else
    * starts a program. */
  lemma ShellOrCommand(sn: seq<Sniffer>, end: Effect, user: string, secret: Secret, size: ScreenSize,
                       remote: Remote, local: Local, prog: Run)
    requires ProgramLike(prog, local)
    requires end.SessionEnd? && ReachesChannel(user, secret, remote, local) && Notify(sn, SetLogs).failure == None
    ensures var e := ClientRun(sn, end, user, secret, size, remote, local, prog).effects;
            Started(local) in e &&
            forall i :: 0 <= i < |e| && (e[i].ExecCommand? || e[i] == InvokeShell) ==> e[i] == Started(local)
  {
    var auth, granted, body, tail := ShapeKinds(sn, end, user, secret, size, remote, local, prog);
    StartInShape(auth, granted, body, tail, size, Started(local));
  }

  /** An interactive program on a terminal is the bracketed relay. */
  lemma ProgramInteractive(sn: seq<Sniffer>, local: Local, saved: TermMode, events: seq<Event>)
      returns (rl: seq<Effect>, close: seq<Effect>)
    requires local.originalCommand.None? && local.stdinIsTty
    ensures rl == Relay(sn, events).effects
    ensures Program(sn, local, saved, events).effects == [InvokeShell, TerminalRaw] + rl + close
    ensures forall i :: 0 <= i < |close| ==> close[i].TerminalRestore?
  {
    rl := Relay(sn, events).effects;
    close := if Relay(sn, events).exit == Blocked then [] else [TerminalRestore(saved)];
  }

  /** An executed command on a terminal, with sniffers that take the
    * command: the request, the command's `stdin_filter` round, then the
    * bracketed relay. */
  lemma ProgramCommand(sn: seq<Sniffer>, local: Local, saved: TermMode, events: seq<Event>)
      returns (lead: seq<Effect>, rl: seq<Effect>, close: seq<Effect>)
    requires local.originalCommand.Some? && local.stdinIsTty && Quiet(sn, StdinHook)
    ensures lead == [ExecCommand(local.originalCommand.value)] + Calls(sn, StdinFilter(local.originalCommand.value)) + [TerminalRaw]
    ensures rl == Relay(sn, events).effects
    ensures Program(sn, local, saved, events).effects == lead + rl + close
    ensures forall i :: 0 <= i < |close| ==> close[i].TerminalRestore?
  {
    var cmd := local.originalCommand.value;
    RunCommandNotifiesFirst(sn, cmd, true, saved, events);
    lead := [ExecCommand(cmd)] + Calls(sn, StdinFilter(cmd)) + [TerminalRaw];
    rl := Relay(sn, events).effects;
    close := if Relay(sn, events).exit == Blocked then [] else [TerminalRestore(saved)];
    ShellOnTerminal(sn, saved, events);
    Regroup(ExecCommand(cmd), Calls(sn, StdinFilter(cmd)), rl, close);
  }

  lemma ShellOnTerminal(sn: seq<Sniffer>, saved: TermMode, events: seq<Event>)
    ensures Shell(sn, true, saved, events).effects ==
              [TerminalRaw] + Relay(sn, events).effects +
              (if Relay(sn, events).exit == Blocked then [] else [TerminalRestore(saved)])
  {
  }

  lemma Regroup(first: Effect, calls: seq<Effect>, rl: seq<Effect>, close: seq<Effect>)
    ensures [first] + (calls + ([TerminalRaw] + rl + close)) == ([first] + calls + [TerminalRaw]) + rl + close
  {
  }

  /** Around the relay, a run writes nothing to stdout and sends nothing. */
  lemma RelayInShape(auth: seq<Effect>, granted: seq<Effect>, lead: seq<Effect>, rl: seq<Effect>, close: seq<Effect>,
                     tail: seq<Effect>, size: ScreenSize)
    requires WellShaped(auth, granted, lead + rl + close, tail, size) && |granted| >= 2
    requires forall i :: 0 <= i < |lead| ==> !lead[i].StdoutWrite? && !lead[i].ChannelSend?
    requires forall i :: 0 <= i < |close| ==> close[i].TerminalRestore?
    ensures var e := auth + granted + (lead + rl + close) + tail;
            Stdout(e) == Stdout(rl) && Sent(e) == Sent(rl)
  {
    var before := auth + granted + lead;
    var after := close + tail;
    assert auth + granted + (lead + rl + close) + tail == before + rl + after;
    forall i | 0 <= i < |before|
      ensures !before[i].StdoutWrite? && !before[i].ChannelSend?
    {
      if i < |auth| {
        assert before[i] == auth[i];
      } else if i < |auth| + |granted| {
        assert before[i] == granted[i - |auth|];
        if i - |auth| < 2 {
          assert granted[i - |auth|] == granted[..2][i - |auth|];
        }
      } else {
        assert before[i] == lead[i - |auth| - |granted|];
      }
    }
    forall i | 0 <= i < |after|
      ensures !after[i].StdoutWrite? && !after[i].ChannelSend?
    {
      if i >= |close| {
        assert after[i] == tail[i - |close|];
      }
    }
    ProjectNothing(before, StdoutBytes);
    ProjectNothing(before, SentBytes);
    ProjectNothing(after, StdoutBytes);
    ProjectNothing(after, SentBytes);
    ProjectAppend(before + rl, after, StdoutBytes);
    ProjectAppend(before, rl, StdoutBytes);
    ProjectAppend(before + rl, after, SentBytes);
    ProjectAppend(before, rl, SentBytes);
  }

  /** What the user sees is exactly what the target sent: on a session on a
    * terminal, whether a shell or an executed command, with quiet sniffers
    * and a smooth relay, stdout receives the channel's bytes up to the
    * close, and the channel receives what was typed before it. */
  lemma ClientRelaysFaithfully(sn: seq<Sniffer>, end: Effect, user: string, secret: Secret, size: ScreenSize,
                               remote: Remote, local: Local, saved: TermMode)
    requires end.SessionEnd? && ReachesChannel(user, secret, remote, local) && Notify(sn, SetLogs).failure == None
    requires local.stdinIsTty && Smooth(sn, remote.events)
    ensures var e := ClientRun(sn, end, user, secret, size, remote, local, Program(sn, local, saved, remote.events)).effects;
            Stdout(e) == BeforeClose(remote.events, ChunkOf) && Sent(e) == BeforeClose(remote.events, TypedOf)
  {
    ProgramEffects(sn, local, saved, remote.events);
    var auth, granted, body, tail := ShapeKinds(sn, end, user, secret, size, remote, local, Program(sn, local, saved, remote.events));
    var lead, rl, close;
    if local.originalCommand.None? {
      rl, close := ProgramInteractive(sn, local, saved, remote.events);
      lead := [InvokeShell, TerminalRaw];
    } else {
      lead, rl, close := ProgramCommand(sn, local, saved, remote.events);
      CallsNoData(sn, StdinFilter(local.originalCommand.value), ExecCommand(local.originalCommand.value));
    }
    RelayInShape(auth, granted, lead, rl, close, tail, size);
    RelaySmooth(sn, remote.events);
  }

  lemma CallsNoData(sn: seq<Sniffer>, hook: Hook, first: Effect)
    requires !first.StdoutWrite? && !first.ChannelSend?
    ensures var lead := [first] + Calls(sn, hook) + [TerminalRaw];
            forall i :: 0 <= i < |lead| ==> !lead[i].StdoutWrite? && !lead[i].ChannelSend?
  {
    var lead := [first] + Calls(sn, hook) + [TerminalRaw];
    forall i | 0 <= i < |lead| ensures !lead[i].StdoutWrite? && !lead[i].ChannelSend? {
      if 0 < i < |lead| - 1 { assert lead[i] == Calls(sn, hook)[i - 1]; }
    }
  }

  /** The proxy's screen size can be packed exactly when neither `LINES` nor
    * `COLUMNS` is set. */
  lemma ProxySizePackable(lines: Option<string>, columns: Option<string>)
    ensures PtyPackable(ProxyScreenSize(lines, columns)) <==> lines.None? && columns.None?
  {
  }

  /** As written, a dimension from the environment stops `_start_session` at
    * `get_pty` with `struct.error`: no pty request, no sniffer call, no
    * program and no teardown. The intended run requests the pty with that
    * size. */
  lemma EnvironmentSizeStopsAsWritten(sn: seq<Sniffer>, end: Effect, size: ScreenSize, remote: Remote, prog: Run)
    requires remote.channelOpens && !PtyPackable(size)
    ensures var r := StartInnerAsWritten(sn, end, size, remote, prog);
            r.exit == Raised(StructError) &&
            forall i :: 0 <= i < |r.effects| ==>
              !r.effects[i].RequestPty? && !r.effects[i].Call? && !Teardown(r.effects[i]) &&
              r.effects[i] != InvokeShell && !r.effects[i].ExecCommand?
    ensures RequestPty(size.first, size.second) in StartInner(sn, end, size, remote, prog).effects
  {
    var g := [OpenChannel, RequestPty(size.first, size.second)] + Notify(sn, SetLogs).effects;
    assert g[1] == RequestPty(size.first, size.second);
  }

  /** `LINES=24` in the environment: as written the channel opens and the
    * session stops with `struct.error`; intended, the pty is requested as
    * 24 columns by 300 lines and the program runs. */
  lemma LinesSetStopsAsWritten(sn: seq<Sniffer>, end: Effect, remote: Remote, prog: Run)
    requires remote.channelOpens && Notify(sn, SetLogs).failure == None
    ensures var size := ProxyScreenSize(Some("24"), None);
            StartInnerAsWritten(sn, end, size, remote, prog) == Run([OpenChannel], Raised(StructError)) &&
            StartInner(sn, end, size, remote, prog).effects[..2] == [OpenChannel, RequestPty(FromEnv("24"), Default(300))] &&
            StartInner(sn, end, size, remote, prog).effects[2 + |Notify(sn, SetLogs).effects|..]
              [..|prog.effects|] == prog.effects
  {
    var size := ProxyScreenSize(Some("24"), None);
    var g := [OpenChannel, RequestPty(size.first, size.second)] + Notify(sn, SetLogs).effects;
    var e := StartInner(sn, end, size, remote, prog).effects;
    var more := if prog.exit == Returned then [ChannelClose] + Finish(end) else [];
    assert e == g + prog.effects + more;
    assert e[|g|..][..|prog.effects|] == prog.effects;
  }
}
