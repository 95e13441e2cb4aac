/** `SSHSession` of session.py: a base `Session` together with the SSH
  * client it created, the delegations to that client, and
  * `start_session`, which fetches the user's key and runs the client. */
module Sessions {
  import opened Basics
  import opened Errors
  import opened Aker
  import opened Trace
  import opened Interactive
  import opened ClientSpec
  import opened SessionBase
  import opened SSHClientModel

  /** What `get_priv_key` consulting each source looks like in the trace. */
  function Lookups(tried: seq<KeySource>): seq<Effect> {
    if tried == [] then [] else [KeyLookup(tried[0])] + Lookups(tried[1..])
  }

  /** `SSHSession.start_session`: the key is fetched outside the `try`, so
    * its failure propagates; whatever the client's `start_session` raises
    * is caught by `except Exception` and the session just returns. */
  function SessionRun(sn: seq<Sniffer>, end: Effect, user: string, size: ScreenSize,
                      remote: Remote, local: Local, prog: Run): Run {
    var choice := GetPrivKey(local.agentKeys, local.keyFile);
    var looked := Lookups(choice.tried);
    match choice.key
    case Err(f) => Run(looked, Raised(f))
    case Ok(k) =>
      var c := ClientRun(sn, end, user, Key(k), size, remote, local, prog);
      Run(looked + c.effects, if c.exit.Raised? then Returned else c.exit)
  }

  // ---------------------------------------------------------------- lemmas

  /** The only exception that leaves `start_session` is the missing key,
    * and then nothing has reached the target. */
  lemma OnlyKeyFailureEscapes(sn: seq<Sniffer>, end: Effect, user: string, size: ScreenSize,
                              remote: Remote, local: Local, prog: Run)
    ensures var r := SessionRun(sn, end, user, size, remote, local, prog);
            (r.exit.Raised? <==> local.agentKeys == [] && local.keyFile == None) &&
            (r.exit.Raised? ==> r.exit == Raised(InvalidPrivateKey) && r.effects == [KeyLookup(Agent), KeyLookup(KeyFile)])
  {
    var choice := GetPrivKey(local.agentKeys, local.keyFile);
    if choice.key.Err? {
      assert choice.tried == [Agent, KeyFile];
      assert Lookups(choice.tried) == [KeyLookup(Agent), KeyLookup(KeyFile)];
    }
  }

  /** The key `get_priv_key` picks, when it picks one. */
  function ChosenKey(local: Local): PrivateKey
    requires local.agentKeys != [] || local.keyFile.Some?
  {
    if local.agentKeys != [] then local.agentKeys[0] else local.keyFile.value
  }

  /** The lookups `get_priv_key` makes: the agent, then the key file when
    * the agent has no key. */
  function KeyLookups(agentFirst: bool): seq<Effect> {
    if agentFirst then [KeyLookup(Agent)] else [KeyLookup(Agent), KeyLookup(KeyFile)]
  }

  /** A session with a key, in pieces: the lookups, then the client run
    * with the chosen key. */
  lemma KeyedRun(sn: seq<Sniffer>, end: Effect, user: string, size: ScreenSize, remote: Remote, local: Local, prog: Run)
      returns (client: Run)
    requires local.agentKeys != [] || local.keyFile.Some?
    ensures var r := SessionRun(sn, end, user, size, remote, local, prog);
            r.effects == KeyLookups(local.agentKeys != []) + client.effects &&
            r.exit == (if client.exit.Raised? then Returned else client.exit)
    ensures client == ClientRun(sn, end, user, Key(ChosenKey(local)), size, remote, local, prog)
  {
    var choice := GetPrivKey(local.agentKeys, local.keyFile);
    assert Lookups(choice.tried) == KeyLookups(local.agentKeys != []);
    client := ClientRun(sn, end, user, Key(ChosenKey(local)), size, remote, local, prog);
  }

  /** Past the authentication exchange, a run neither authenticates nor
    * looks for keys. */
  lemma AuthOnlyInShape(auth: seq<Effect>, granted: seq<Effect>, body: seq<Effect>, tail: seq<Effect>,
                        size: ScreenSize, first: Effect)
    requires WellShaped(auth, granted, body, tail, size) && (first == InvokeShell || first.ExecCommand?)
    requires body != [] ==> body[0] == first
    requires |granted| == 0 || |granted| >= 2
    ensures var e := auth + granted + body + tail;
            forall i :: 0 <= i < |e| ==> (AuthEffect(e[i]) ==> i < |auth|) && !e[i].KeyLookup?
  {
    var e := auth + granted + body + tail;
    forall i | 0 <= i < |e|
      ensures (AuthEffect(e[i]) ==> i < |auth|) && !e[i].KeyLookup?
    {
      if i < |auth| {
        assert e[i] == auth[i];
      } else if i < |auth| + |granted| {
        var j := i - |auth|;
        assert e[i] == granted[j];
        if j < 2 {
          assert granted[j] == granted[..2][j];
        }
      } else if i < |auth| + |granted| + |body| {
        assert e[i] == body[i - |auth| - |granted|];
      } else {
        assert e[i] == tail[i - |auth| - |granted| - |body|];
      }
    }
  }

  /** The trace of a keyed session, in pieces: the lookups, the
    * authentication exchange, and a rest that neither authenticates nor
    * looks for keys. */
  lemma {:induction false} KeyedPieces(looked: seq<Effect>, c: seq<Effect>, user: string, key: PrivateKey,
                                       remote: Remote, typed: string, agentFirst: bool)
    requires looked == if agentFirst then [KeyLookup(Agent)] else [KeyLookup(Agent), KeyLookup(KeyFile)]
    requires var auth := Authenticate(user, Key(key), remote, typed).effects;
             |c| >= |auth| && c[..|auth|] == auth &&
             forall i :: 0 <= i < |c| ==> (AuthEffect(c[i]) ==> i < |auth|) && !c[i].KeyLookup?
    ensures var e := looked + c;
            var n := |looked|;
            |e| > n && e[0] == KeyLookup(Agent) && e[n] == AuthPublicKey(user, key) &&
            (KeyLookup(KeyFile) in e <==> !agentFirst) &&
            forall i :: 0 <= i < |e| && e[i].AuthPassword? ==>
              i == n + 2 && e[n + 1] == PasswordPrompt && e[i] == AuthPassword(user, typed) &&
              remote.publicKeyReply == Rejected
  {
    var a := Authenticate(user, Key(key), remote, typed);
    var auth := a.effects;
    var e := looked + c;
    var n := |looked|;
    assert e[n] == c[0] == auth[0];
    if !agentFirst {
      assert e[1] == KeyLookup(KeyFile);
    } else {
      forall i | 0 <= i < |e|
        ensures e[i] != KeyLookup(KeyFile)
      {
        if i >= n {
          assert e[i] == c[i - n];
        }
      }
    }
    forall i | 0 <= i < |e|
      ensures e[i].AuthPassword? ==>
                i == n + 2 && e[n + 1] == PasswordPrompt && e[i] == AuthPassword(user, typed) &&
                remote.publicKeyReply == Rejected
    {
      if i >= n && e[i].AuthPassword? {
        assert e[i] == c[i - n];
        assert i - n < |auth|;
        assert c[i - n] == auth[i - n];
        assert i - n != 0;
        assert PasswordPrompt in auth;
        assert e[n + 1] == c[1] == auth[1];
      }
    }
  }

  /** The session authenticates with the key `get_priv_key` chose: the
    * agent's first key when it has one, the key file only otherwise. A
    * password is only ever the one typed at the prompt, right after the
    * server rejected the key. */
  lemma AuthenticatesWithChosenKey(sn: seq<Sniffer>, end: Effect, user: string, size: ScreenSize,
                                   remote: Remote, local: Local, prog: Run)
    requires remote.transportUp && end.SessionEnd? && (local.agentKeys != [] || local.keyFile.Some?)
    requires ProgramLike(prog, local)
    ensures var e := SessionRun(sn, end, user, size, remote, local, prog).effects;
            var n := if local.agentKeys != [] then 1 else 2;
            var key := if local.agentKeys != [] then local.agentKeys[0] else local.keyFile.value;
            |e| > n && e[0] == KeyLookup(Agent) && e[n] == AuthPublicKey(user, key) &&
            (KeyLookup(KeyFile) in e <==> local.agentKeys == []) &&
            forall i :: 0 <= i < |e| && e[i].AuthPassword? ==>
              i == n + 2 && e[n + 1] == PasswordPrompt && e[i] == AuthPassword(user, local.typedPassword) &&
              remote.publicKeyReply == Rejected
  {
    var client := KeyedRun(sn, end, user, size, remote, local, prog);
    ChosenKeyAuthPieces(sn, end, user, size, remote, local, prog);
    KeyedPieces(KeyLookups(local.agentKeys != []), client.effects, user, ChosenKey(local), remote, local.typedPassword,
                local.agentKeys != []);
  }

  /** The client run with the chosen key starts with the authentication
    * exchange and neither authenticates nor looks for keys after it. */
  lemma ChosenKeyAuthPieces(sn: seq<Sniffer>, end: Effect, user: string, size: ScreenSize,
                            remote: Remote, local: Local, prog: Run)
    requires remote.transportUp && end.SessionEnd? && (local.agentKeys != [] || local.keyFile.Some?)
    requires ProgramLike(prog, local)
    ensures var c := ClientRun(sn, end, user, Key(ChosenKey(local)), size, remote, local, prog).effects;
            var auth := Authenticate(user, Key(ChosenKey(local)), remote, local.typedPassword).effects;
            |c| >= |auth| && c[..|auth|] == auth &&
            forall i :: 0 <= i < |c| ==> (AuthEffect(c[i]) ==> i < |auth|) && !c[i].KeyLookup?
  {
    var auth, granted, body, tail := ShapeKinds(sn, end, user, Key(ChosenKey(local)), size, remote, local, prog);
    AuthOnlyInShape(auth, granted, body, tail, size, Started(local));
    var c := auth + granted + body + tail;
    assert c[..|auth|] == auth;
  }

  // ------------------------------------------------------------- the class

  class SSHSession {
    /** The base `Session` fields: core, target, user, port and id. */
    const base: Session
    /** `_client`: the SSH client this session created for itself. */
    const client: SSHClient

    /** `SSHSession.__init__` once the port has been converted. */
    constructor (core: Core, host: string, uuid: SessionId, port: int, process: Process)
      ensures base.core == core && base.host == host && base.uuid == uuid && base.process == process
      ensures base.hostUser == core.user.name && base.hostPort == port && base.srcPort == core.config.srcPort
      ensures client.session == base
      ensures client.sniffers == [] && client.socket == NoSocket && client.channel == NoChannel && client.size == None
      ensures fresh(base) && fresh(client)
    {
      var b := new Session(core, host, uuid, port, process);
      base := b;
      client := new SSHClient(b);
    }

    /** `attach_sniffer`, delegated to the client. */
    method AttachSniffer(s: Sniffer)
      modifies client
      ensures client.sniffers == old(client.sniffers) + [s]
      ensures client.socket == old(client.socket) && client.channel == old(client.channel) && client.size == old(client.size)
    {
      client.AttachSniffer(s);
    }

    /** `stop_sniffer`, delegated to the client. */
    method StopSniffer() returns (failure: Option<Fault>)
      requires client.session == base
      modifies base.process
      ensures base.process.trace == old(base.process.trace) + Notify(client.sniffers, Stop).effects
      ensures failure == Notify(client.sniffers, Stop).failure
      ensures base.process.terminal == old(base.process.terminal)
    {
      failure := client.StopSniffer();
    }

    /** `connect(size)`: the client connects to this session's host and
      * converted port. */
    method Connect(size: ScreenSize, reachable: bool) returns (failure: Option<Fault>)
      requires client.session == base
      modifies client, base.process
      ensures client.size == Some(size) && client.socket == Socket(base.host, base.hostPort, reachable, true)
      ensures client.sniffers == old(client.sniffers) && client.channel == old(client.channel)
      ensures base.process.trace == old(base.process.trace) + [TcpConnect(base.host, base.hostPort)]
      ensures base.process.terminal == old(base.process.terminal)
      ensures failure == (if reachable then None else Some(SocketError))
    {
      failure := client.Connect(base.host, base.hostPort, size, reachable);
    }

    /** `start_session`, on a connected client: fetch the key, then run the
      * client with it as the user's own name. */
    method StartSession(remote: Remote, local: Local) returns (exit: Exit)
      requires client.session == base && client.size.Some? && client.socket.Socket?
      requires client.socket.connected && client.socket.open
      modifies client, base.process
      ensures client.sniffers == old(client.sniffers) && client.size == old(client.size)
      ensures var r := SessionRun(client.sniffers, EndOf(base.uuid, base.core, base.host), base.hostUser, client.size.value,
                                  remote, local, Program(client.sniffers, local, old(base.process.terminal), remote.events));
              base.process.trace == old(base.process.trace) + r.effects && exit == r.exit
      ensures var choice := GetPrivKey(local.agentKeys, local.keyFile);
              if choice.key.Err? then client.channel == old(client.channel) && client.socket == old(client.socket)
              else
                var secret := Key(choice.key.value);
                var c := ClientRun(client.sniffers, EndOf(base.uuid, base.core, base.host), base.hostUser, secret,
                                   client.size.value, remote, local,
                                   Program(client.sniffers, local, old(base.process.terminal), remote.events)).exit;
                client.channel == (if ReachesChannel(base.hostUser, secret, remote, local)
                                   then (if c == Returned then ChannelClosed else Opened) else old(client.channel)) &&
                client.socket == (if remote.transportUp && c != Blocked then Closed(old(client.socket)) else old(client.socket))
      ensures base.process.terminal == (if exit == Blocked then RawMode else old(base.process.terminal))
    {
      var choice := GetPrivKey(local.agentKeys, local.keyFile);
      ghost var t0 := base.process.trace;
      base.process.trace := base.process.trace + Lookups(choice.tried);
      if choice.key.Err? {
        return Raised(choice.key.error);
      }
      ghost var c := ClientRun(client.sniffers, EndOf(base.uuid, base.core, base.host), base.hostUser, Key(choice.key.value),
                               client.size.value, remote, local,
                               Program(client.sniffers, local, old(base.process.terminal), remote.events));
      exit := client.StartSession(base.hostUser, Key(choice.key.value), remote, local);
      Associative(t0, Lookups(choice.tried), c.effects);
      if exit.Raised? {
        exit := Returned;
      }
    }
  }

  /** `SSHSession(aker, host, uuid, port)`: `int(port)` runs first and
    * raises ValueError for a port that is not an integer. */
  method NewSSHSession(core: Core, host: string, uuid: SessionId, port: PortArg, process: Process)
      returns (r: Result<SSHSession, Fault>)
    ensures r.Err? <==> PortNumber(port).Err?
    ensures r.Err? ==> r.error == PortNumber(port).error
    ensures r.Ok? ==> var s := r.value;
              fresh(s) && fresh(s.base) && fresh(s.client) && s.client.session == s.base &&
              s.base.core == core && s.base.host == host && s.base.uuid == uuid && s.base.process == process &&
              s.base.hostUser == core.user.name && s.base.hostPort == PortNumber(port).value &&
              s.base.srcPort == core.config.srcPort &&
              s.client.sniffers == [] && s.client.socket == NoSocket && s.client.channel == NoChannel &&
              s.client.size == None
  {
    match PortNumber(port) {
      case Err(f) =>
        return Err(f);
      case Ok(p) =>
        var s := new SSHSession(core, host, uuid, p, process);
        return Ok(s);
    }
  }
}
