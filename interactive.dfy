/** The relay of `SSHClient.interactive_shell` as a specification: the
  * environment is a script of readiness events, and `Relay` gives the trace
  * and the exit the loop produces from it. `SSHClientModel` runs the same
  * loop imperatively and is proved against these functions. */
module Interactive {
  import opened Basics
  import opened Errors
  import opened Trace

  /** The bounds the loop passes to `channel.recv` and `os.read`. */
  const ChannelReadSize := 10240
  const StdinReadSize := 4096

  /** What `os.write(stdout, x)` did: wrote the first `count` bytes, raised
    * EAGAIN, or raised another OSError. */
  datatype WriteOutcome = Wrote(count: nat) | WouldBlock | WriteFailed

  /** What `channel.recv(ChannelReadSize)` did, and for data what the stdout
    * write of it then did. Empty `bytes` means the remote side closed. */
  datatype ChannelRead = Data(bytes: string, write: WriteOutcome) | RecvTimeout | RecvFailed

  /** What `channel.send(buf)` did. */
  datatype SendOutcome = Delivered | SendRaised

  /** What `os.read(stdin, StdinReadSize)` returned, and what sending it did. */
  datatype StdinRead = Input(bytes: string, send: SendOutcome) | ReadFailed

  /** One wake-up of `select`: which of the channel and stdin were ready
    * (with what reading them gives), or a SIGWINCH delivered while waiting
    * with the console's new size. */
  datatype Event =
    | Ready(channel: Option<ChannelRead>, stdin: Option<StdinRead>)
    | Winch(columns: int, lines: int)

  /** How a piece of the session ended: it returned, it raised, or the
    * script ran out while it was still waiting in `select`. */
  datatype Exit = Returned | Raised(fault: Fault) | Blocked

  datatype Run = Run(effects: seq<Effect>, exit: Exit)

  /** Where control goes after part of an iteration: on to the stdin branch,
    * straight to the next iteration (`continue`), or out of the loop. */
  datatype Flow = Proceed | NextRound | Halt(exit: Exit)
  datatype Part = Part(effects: seq<Effect>, flow: Flow)

  /** `SSHClient.sigwinch` with the console size it queried: resize the
    * remote pty, then tell every sniffer. */
  function SigwinchRun(sn: seq<Sniffer>, columns: int, lines: int): Notified {
    var n := Notify(sn, Hook.Sigwinch(columns, lines));
    Notified([ResizePty(columns, lines)] + n.effects, n.failure)
  }

  /** The `if self.channel in r` branch. */
  function ChannelPart(sn: seq<Sniffer>, c: Option<ChannelRead>): Part {
    match c
    case None => Part([], Proceed)
    case Some(RecvTimeout) => Part([], Proceed)
    case Some(RecvFailed) => Part([], Halt(Raised(ChannelRecvFailed)))
    case Some(Data(x, w)) =>
      if |x| == 0 then Part([], Halt(Returned))
      else
        var n := Notify(sn, ChannelFilter(x));
        if n.failure.Some? then Part(n.effects, Halt(Raised(n.failure.value)))
        else match w
          case Wrote(k) => Part(n.effects + [StdoutWrite(x[..Min(k, |x|)])], Proceed)
          case WouldBlock => Part(n.effects, NextRound)
          case WriteFailed => Part(n.effects, Proceed)
  }

  /** The `if sys.stdin in r` branch. */
  function StdinPart(sn: seq<Sniffer>, s: Option<StdinRead>): Part {
    match s
    case None => Part([], Proceed)
    case Some(ReadFailed) => Part([], Halt(Raised(StdinReadFailed)))
    case Some(Input(b, send)) =>
      var n := Notify(sn, StdinFilter(b));
      if n.failure.Some? then Part(n.effects, Halt(Raised(n.failure.value)))
      else if send == SendRaised then Part(n.effects, Halt(Raised(ChannelSendFailed)))
      else Part(n.effects + [ChannelSend(b)], Proceed)
  }

  /** One iteration of the `while True` loop. Its flow is never `NextRound`;
    * it returns exactly on a zero-length channel read; and EAGAIN on the
    * stdout write (`continue`) skips the stdin branch. */
  function Step(sn: seq<Sniffer>, ev: Event): (r: Part)
    ensures !r.flow.NextRound?
    ensures r.flow == Halt(Returned) <==> IsClose(ev)
    ensures ev.Ready? && ev.channel.Some? && ev.channel.value.Data? && ev.channel.value.bytes != [] &&
            ev.channel.value.write == WouldBlock &&
            Notify(sn, ChannelFilter(ev.channel.value.bytes)).failure == None ==>
              r == Part(Notify(sn, ChannelFilter(ev.channel.value.bytes)).effects, Proceed)
  {
    match ev
    case Winch(c, l) =>
      var w := SigwinchRun(sn, c, l);
      Part(w.effects, if w.failure.Some? then Halt(Raised(w.failure.value)) else Proceed)
    case Ready(c, s) =>
      var cp := ChannelPart(sn, c);
      if cp.flow.Halt? then cp
      else if cp.flow.NextRound? then Part(cp.effects, Proceed)
      else
        var sp := StdinPart(sn, s);
        Part(cp.effects + sp.effects, sp.flow)
  }

  /** The loop over a whole script: iterations run until one halts; when the
    * script runs out first, the loop is still waiting (`Blocked`). */
  function Relay(sn: seq<Sniffer>, script: seq<Event>): Run
    decreases |script|
  {
    if script == [] then Run([], Blocked)
    else
      var st := Step(sn, script[0]);
      if st.flow.Halt? then Run(st.effects, st.flow.exit)
      else
        var rest := Relay(sn, script[1..]);
        Run(st.effects + rest.effects, rest.exit)
  }

  /** `interactive_shell`: `tcgetattr` fails on a stdin that is not a
    * terminal before the `try`; otherwise raw mode for the loop and the
    * saved attributes back in the `finally`, on every exit of the loop. */
  function Shell(sn: seq<Sniffer>, stdinIsTty: bool, saved: TermMode, script: seq<Event>): Run {
    if !stdinIsTty then Run([], Raised(NotATerminal))
    else
      var r := Relay(sn, script);
      if r.exit == Blocked then Run([TerminalRaw] + r.effects, Blocked)
      else Run([TerminalRaw] + r.effects + [TerminalRestore(saved)], r.exit)
  }

  /** `run_command`: the command goes to every sniffer's `stdin_filter`,
    * then the shell loop runs. */
  function RunCommand(sn: seq<Sniffer>, command: string, stdinIsTty: bool, saved: TermMode, script: seq<Event>): Run {
    var n := Notify(sn, StdinFilter(command));
    if n.failure.Some? then Run(n.effects, Raised(n.failure.value))
    else
      var sh := Shell(sn, stdinIsTty, saved, script);
      Run(n.effects + sh.effects, sh.exit)
  }

  /** `interactive_shell` as written, run by Python 2: a SIGWINCH that
    * arrives while `select` waits runs `sigwinch`, and then `select` raises
    * `select.error(EINTR)`, which nothing in the loop catches. `Step` is the
    * evidently intended iteration, where the wait resumes. */
  function StepAsWritten(sn: seq<Sniffer>, ev: Event): (r: Part)
    ensures ev.Winch? ==> r.flow.Halt? && r.flow.exit.Raised? &&
                          r.effects == SigwinchRun(sn, ev.columns, ev.lines).effects
    ensures ev.Ready? ==> r == Step(sn, ev)
  {
    match ev
    case Winch(c, l) =>
      var w := SigwinchRun(sn, c, l);
      Part(w.effects, Halt(Raised(if w.failure.Some? then w.failure.value else SelectInterrupted)))
    case Ready(_, _) => Step(sn, ev)
  }

  /** The loop as written, over a whole script. */
  function RelayAsWritten(sn: seq<Sniffer>, script: seq<Event>): Run
    decreases |script|
  {
    if script == [] then Run([], Blocked)
    else
      var st := StepAsWritten(sn, script[0]);
      if st.flow.Halt? then Run(st.effects, st.flow.exit)
      else
        var rest := RelayAsWritten(sn, script[1..]);
        Run(st.effects + rest.effects, rest.exit)
  }

  // ------------------------------------------------------- reference views

  predicate IsClose(ev: Event) {
    ev.Ready? && ev.channel.Some? && ev.channel.value.Data? && ev.channel.value.bytes == []
  }

  /** `f` over the events before the first empty channel read. */
  function BeforeClose<T>(script: seq<Event>, f: Event -> seq<T>): seq<T> {
    if script == [] || IsClose(script[0]) then [] else f(script[0]) + BeforeClose(script[1..], f)
  }

  function ChunkOf(ev: Event): string {
    if ev.Ready? && ev.channel.Some? && ev.channel.value.Data? then ev.channel.value.bytes else []
  }
  function TypedOf(ev: Event): string {
    if ev.Ready? && ev.stdin.Some? && ev.stdin.value.Input? then ev.stdin.value.bytes else []
  }
  function ResizeOf(ev: Event): seq<(int, int)> {
    if ev.Winch? then [(ev.columns, ev.lines)] else []
  }
  /** The hooks every sniffer receives for one event. */
  function ObservedOf(ev: Event): seq<Hook> {
    match ev
    case Winch(c, l) => [Hook.Sigwinch(c, l)]
    case Ready(c, s) =>
      (if c.Some? && c.value.Data? then [ChannelFilter(c.value.bytes)] else []) +
      (if s.Some? && s.value.Input? then [StdinFilter(s.value.bytes)] else [])
  }

  /** An event on which nothing goes wrong: reads succeed, a stdout write
    * takes the whole chunk, and sending succeeds. */
  predicate SmoothEvent(ev: Event) {
    match ev
    case Winch(_, _) => true
    case Ready(c, s) =>
      (c.Some? ==> c.value.RecvTimeout? ||
                   (c.value.Data? && c.value.write.Wrote? && c.value.write.count >= |c.value.bytes|)) &&
      (s.Some? ==> s.value.Input? && s.value.send == Delivered)
  }

  /** Sniffers that take every data-path hook without raising. */
  predicate QuietRelay(sn: seq<Sniffer>) {
    Quiet(sn, ChannelHook) && Quiet(sn, StdinHook) && Quiet(sn, WinchHook)
  }

  predicate Smooth(sn: seq<Sniffer>, script: seq<Event>) {
    QuietRelay(sn) && forall i :: 0 <= i < |script| ==> SmoothEvent(script[i])
  }

  // ---------------------------------------------------------------- lemmas

  lemma ProjectOne<T>(x: Effect, f: Effect -> seq<T>)
    ensures Project([x], f) == f(x)
  {
    assert [x][1..] == [];
  }

  /** All the relay does is call sniffers, write stdout, send to the
    * channel and resize the pty. */
  lemma {:induction false} RelayDataPath(sn: seq<Sniffer>, script: seq<Event>)
    ensures forall x :: x in Relay(sn, script).effects ==> DataPath(x)
    decreases |script|
  {
    if script != [] {
      RelayDataPath(sn, script[1..]);
      var ev := script[0];
      match ev
      case Winch(c, l) =>
        NotifyDataPath(sn, Hook.Sigwinch(c, l));
      case Ready(c, s) =>
        if c.Some? && c.value.Data? { NotifyDataPath(sn, ChannelFilter(c.value.bytes)); }
        if s.Some? && s.value.Input? { NotifyDataPath(sn, StdinFilter(s.value.bytes)); }
    }
  }

  /** A zero-length read ends the loop: later events are never consumed,
    * and if nothing ended the loop before, it returns normally with no
    * effect of its own. */
  lemma {:induction false} RelayEndsAtFirstClose(sn: seq<Sniffer>, pre: seq<Event>, ev: Event, post: seq<Event>)
    requires IsClose(ev)
    ensures Relay(sn, pre + [ev] + post) == Relay(sn, pre + [ev])
    ensures Relay(sn, pre + [ev]).exit != Blocked
    ensures Relay(sn, pre).exit == Blocked ==> Relay(sn, pre + [ev]) == Run(Relay(sn, pre).effects, Returned)
    decreases |pre|
  {
    if pre == [] {
      assert (pre + [ev] + post)[0] == ev && (pre + [ev])[0] == ev;
      assert Step(sn, ev) == Part([], Halt(Returned));
    } else {
      var full := pre + [ev] + post;
      assert full[0] == pre[0] && full[1..] == pre[1..] + [ev] + post;
      assert (pre + [ev])[0] == pre[0] && (pre + [ev])[1..] == pre[1..] + [ev];
      RelayEndsAtFirstClose(sn, pre[1..], ev, post);
    }
  }

  /** The views of a round of calls followed by one effect: the effect's. */
  lemma CallsThen(sn: seq<Sniffer>, hook: Hook, x: Effect)
    ensures Stdout(Calls(sn, hook) + [x]) == StdoutBytes(x)
    ensures Sent(Calls(sn, hook) + [x]) == SentBytes(x)
    ensures PtySizes(Calls(sn, hook) + [x]) == PtySize(x)
  {
    CallsProjectEmpty(Calls(sn, hook));
    ProjectAppend(Calls(sn, hook), [x], StdoutBytes);
    ProjectAppend(Calls(sn, hook), [x], SentBytes);
    ProjectAppend(Calls(sn, hook), [x], PtySize);
    ProjectOne(x, StdoutBytes);
    ProjectOne(x, SentBytes);
    ProjectOne(x, PtySize);
  }

  lemma ChannelPartSmooth(sn: seq<Sniffer>, ev: Event)
    requires ev.Ready? && QuietRelay(sn) && SmoothEvent(ev) && !IsClose(ev)
    ensures ChannelPart(sn, ev.channel).flow == Proceed
    ensures Stdout(ChannelPart(sn, ev.channel).effects) == ChunkOf(ev)
    ensures Sent(ChannelPart(sn, ev.channel).effects) == []
    ensures PtySizes(ChannelPart(sn, ev.channel).effects) == []
  {
    var c := ev.channel;
    if c.Some? && c.value.Data? {
      var x := c.value.bytes;
      NotifyQuiet(sn, ChannelFilter(x));
      assert x[..Min(c.value.write.count, |x|)] == x;
      CallsThen(sn, ChannelFilter(x), StdoutWrite(x));
    }
  }

  lemma StdinPartSmooth(sn: seq<Sniffer>, ev: Event)
    requires ev.Ready? && QuietRelay(sn) && SmoothEvent(ev)
    ensures StdinPart(sn, ev.stdin).flow == Proceed
    ensures Stdout(StdinPart(sn, ev.stdin).effects) == []
    ensures Sent(StdinPart(sn, ev.stdin).effects) == TypedOf(ev)
    ensures PtySizes(StdinPart(sn, ev.stdin).effects) == []
  {
    var s := ev.stdin;
    if s.Some? {
      var b := s.value.bytes;
      NotifyQuiet(sn, StdinFilter(b));
      CallsThen(sn, StdinFilter(b), ChannelSend(b));
    }
  }

  /** One smooth iteration: what it writes, sends and resizes. */
  lemma StepSmooth(sn: seq<Sniffer>, ev: Event)
    requires QuietRelay(sn) && SmoothEvent(ev) && !IsClose(ev)
    ensures Step(sn, ev).flow == Proceed
    ensures Stdout(Step(sn, ev).effects) == ChunkOf(ev)
    ensures Sent(Step(sn, ev).effects) == TypedOf(ev)
    ensures PtySizes(Step(sn, ev).effects) == ResizeOf(ev)
  {
    if ev.Winch? {
      var h := Hook.Sigwinch(ev.columns, ev.lines);
      var x := ResizePty(ev.columns, ev.lines);
      NotifyQuiet(sn, h);
      CallsProjectEmpty(Calls(sn, h));
      ProjectAppend([x], Calls(sn, h), StdoutBytes);
      ProjectAppend([x], Calls(sn, h), SentBytes);
      ProjectAppend([x], Calls(sn, h), PtySize);
      ProjectOne(x, StdoutBytes);
      ProjectOne(x, SentBytes);
      ProjectOne(x, PtySize);
    } else {
      ChannelPartSmooth(sn, ev);
      StdinPartSmooth(sn, ev);
      var a := ChannelPart(sn, ev.channel).effects;
      var b := StdinPart(sn, ev.stdin).effects;
      ProjectAppend(a, b, StdoutBytes);
      ProjectAppend(a, b, SentBytes);
      ProjectAppend(a, b, PtySize);
    }
  }

  /** When nothing goes wrong, stdout receives exactly the channel's bytes up
    * to the first empty read, the channel receives exactly what was typed
    * before it, the pty follows every resize, and the loop returns iff the
    * remote side closes. */
  lemma {:induction false} RelaySmooth(sn: seq<Sniffer>, script: seq<Event>)
    requires Smooth(sn, script)
    ensures Stdout(Relay(sn, script).effects) == BeforeClose(script, ChunkOf)
    ensures Sent(Relay(sn, script).effects) == BeforeClose(script, TypedOf)
    ensures PtySizes(Relay(sn, script).effects) == BeforeClose(script, ResizeOf)
    ensures Relay(sn, script).exit == (if exists i :: 0 <= i < |script| && IsClose(script[i]) then Returned else Blocked)
    decreases |script|
  {
    if script == [] {
    } else if IsClose(script[0]) {
      assert Step(sn, script[0]) == Part([], Halt(Returned));
    } else {
      var ev := script[0];
      StepSmooth(sn, ev);
      var st := Step(sn, ev);
      assert forall i :: 0 <= i < |script[1..]| ==> script[1..][i] == script[i + 1];
      RelaySmooth(sn, script[1..]);
      var rest := Relay(sn, script[1..]);
      ProjectAppend(st.effects, rest.effects, StdoutBytes);
      ProjectAppend(st.effects, rest.effects, SentBytes);
      ProjectAppend(st.effects, rest.effects, PtySize);
      if exists i :: 0 <= i < |script| && IsClose(script[i]) {
        var i :| 0 <= i < |script| && IsClose(script[i]);
        assert IsClose(script[1..][i - 1]);
      }
      if exists i :: 0 <= i < |script[1..]| && IsClose(script[1..][i]) {
        var i :| 0 <= i < |script[1..]| && IsClose(script[1..][i]);
        assert IsClose(script[i + 1]);
      }
    }
  }

  /** A quiet broadcast followed by one data-path effect: sniffer `sn[k]`
    * sees the hook once. */
  lemma CallsThenObserved(sn: seq<Sniffer>, hook: Hook, x: Effect, k: nat)
    requires Quiet(sn, KindOf(hook)) && !x.Call?
    requires k < |sn| && DistinctIds(sn)
    ensures HooksOf(Notify(sn, hook).effects + [x], sn[k].id) == [hook]
  {
    NotifyQuiet(sn, hook);
    HooksOfCalls(sn, hook, k);
    ProjectAppend(Calls(sn, hook), [x], HookFor(sn[k].id));
    ProjectOne(x, HookFor(sn[k].id));
  }

  lemma ChannelPartObserved(sn: seq<Sniffer>, ev: Event, k: nat)
    requires ev.Ready? && QuietRelay(sn) && SmoothEvent(ev) && !IsClose(ev)
    requires k < |sn| && DistinctIds(sn)
    ensures HooksOf(ChannelPart(sn, ev.channel).effects, sn[k].id) ==
              (if ev.channel.Some? && ev.channel.value.Data? then [ChannelFilter(ev.channel.value.bytes)] else [])
  {
    var c := ev.channel;
    if c.Some? && c.value.Data? {
      var x := c.value.bytes;
      NotifyQuiet(sn, ChannelFilter(x));
      CallsThenObserved(sn, ChannelFilter(x), StdoutWrite(x[..Min(c.value.write.count, |x|)]), k);
    }
  }

  lemma StdinPartObserved(sn: seq<Sniffer>, ev: Event, k: nat)
    requires ev.Ready? && QuietRelay(sn) && SmoothEvent(ev)
    requires k < |sn| && DistinctIds(sn)
    ensures HooksOf(StdinPart(sn, ev.stdin).effects, sn[k].id) ==
              (if ev.stdin.Some? && ev.stdin.value.Input? then [StdinFilter(ev.stdin.value.bytes)] else [])
  {
    var s := ev.stdin;
    if s.Some? {
      var b := s.value.bytes;
      NotifyQuiet(sn, StdinFilter(b));
      CallsThenObserved(sn, StdinFilter(b), ChannelSend(b), k);
    }
  }

  /** With distinct sniffer ids, the sniffer `sn[k]` receives one hook
    * call per observed event, in the order of the events. */
  lemma StepObserved(sn: seq<Sniffer>, ev: Event, k: nat)
    requires QuietRelay(sn) && SmoothEvent(ev) && !IsClose(ev)
    requires k < |sn| && DistinctIds(sn)
    ensures HooksOf(Step(sn, ev).effects, sn[k].id) == ObservedOf(ev)
  {
    var id := sn[k].id;
    match ev
    case Winch(c, l) =>
      var h := Hook.Sigwinch(c, l);
      NotifyQuiet(sn, h);
      HooksOfCalls(sn, h, k);
      ProjectAppend([ResizePty(c, l)], Calls(sn, h), HookFor(id));
      ProjectOne(ResizePty(c, l), HookFor(id));
    case Ready(c, s) =>
      ChannelPartSmooth(sn, ev);
      StdinPartSmooth(sn, ev);
      ChannelPartObserved(sn, ev, k);
      StdinPartObserved(sn, ev, k);
      ProjectAppend(ChannelPart(sn, c).effects, StdinPart(sn, s).effects, HookFor(id));
  }

  /** The per-sniffer call log: every sniffer sees the same hooks, one per
    * channel chunk, stdin read and resize, in order, up to the close. */
  lemma {:induction false} RelayPerSniffer(sn: seq<Sniffer>, script: seq<Event>, k: nat)
    requires Smooth(sn, script)
    requires k < |sn| && DistinctIds(sn)
    ensures HooksOf(Relay(sn, script).effects, sn[k].id) == BeforeClose(script, ObservedOf)
    decreases |script|
  {
    if script == [] {
    } else if IsClose(script[0]) {
      assert Step(sn, script[0]) == Part([], Halt(Returned));
    } else {
      StepSmooth(sn, script[0]);
      StepObserved(sn, script[0], k);
      assert forall i :: 0 <= i < |script[1..]| ==> script[1..][i] == script[i + 1];
      RelayPerSniffer(sn, script[1..], k);
      ProjectAppend(Step(sn, script[0]).effects, Relay(sn, script[1..]).effects, HookFor(sn[k].id));
    }
  }

  /** The write at `p` of `e` comes right after every sniffer's
    * `channel_filter` of a chunk the written bytes are a prefix of. */
  ghost predicate FilteredAt(sn: seq<Sniffer>, e: seq<Effect>, p: int)
    requires 0 <= p < |e| && e[p].StdoutWrite?
  {
    |sn| <= p && exists x :: e[p - |sn|..p] == Calls(sn, ChannelFilter(x)) && e[p].bytes <= x
  }

  /** Every stdout write is immediately preceded by the `channel_filter`
    * calls of all sniffers, in order, with a chunk the write is a prefix of. */
  ghost predicate FiltersPrecedeWrites(sn: seq<Sniffer>, e: seq<Effect>) {
    forall p :: 0 <= p < |e| && e[p].StdoutWrite? ==> FilteredAt(sn, e, p)
  }

  lemma FilteredAtShift(sn: seq<Sniffer>, a: seq<Effect>, e: seq<Effect>, off: nat, p: nat)
    requires off + |a| <= |e| && e[off..off + |a|] == a
    requires p < |a| && a[p].StdoutWrite? && FilteredAt(sn, a, p)
    ensures FilteredAt(sn, e, off + p)
  {
    var x :| a[p - |sn|..p] == Calls(sn, ChannelFilter(x)) && a[p].bytes <= x;
    assert e[off + p] == a[p];
    forall j | p - |sn| <= j < p
      ensures e[off + j] == a[j]
    {
      assert e[off + j] == e[off..off + |a|][j];
    }
    assert e[off + p - |sn|..off + p] == a[p - |sn|..p];
  }

  lemma FiltersPrecedeWritesAppend(sn: seq<Sniffer>, a: seq<Effect>, b: seq<Effect>)
    requires FiltersPrecedeWrites(sn, a) && FiltersPrecedeWrites(sn, b)
    ensures FiltersPrecedeWrites(sn, a + b)
  {
    var e := a + b;
    assert e[0..|a|] == a;
    assert e[|a|..|a| + |b|] == b;
    forall p | 0 <= p < |e| && e[p].StdoutWrite?
      ensures FilteredAt(sn, e, p)
    {
      if p < |a| {
        assert e[p] == a[p];
        FilteredAtShift(sn, a, e, 0, p);
      } else {
        assert e[p] == b[p - |a|];
        FilteredAtShift(sn, b, e, |a|, p - |a|);
      }
    }
  }

  /** A round of notifications that did not fail called every sniffer. */
  lemma {:induction false} NotifyOkCalls(sn: seq<Sniffer>, hook: Hook)
    requires KindOf(hook) != SetLogsHook && Notify(sn, hook).failure == None
    ensures Notify(sn, hook).effects == Calls(sn, hook)
  {
    if sn != [] {
      NotifyOkCalls(sn[1..], hook);
    }
  }

  lemma NoWritesNoObligation(sn: seq<Sniffer>, e: seq<Effect>)
    requires forall i :: 0 <= i < |e| ==> !e[i].StdoutWrite?
    ensures FiltersPrecedeWrites(sn, e)
  {
  }

  /** A channel read writes to stdout only right after the filters saw the
    * bytes it writes. */
  lemma ChannelPartFilters(sn: seq<Sniffer>, c: Option<ChannelRead>)
    ensures FiltersPrecedeWrites(sn, ChannelPart(sn, c).effects)
  {
    var e := ChannelPart(sn, c).effects;
    if c.Some? && c.value.Data? && c.value.bytes != [] && Notify(sn, ChannelFilter(c.value.bytes)).failure == None
       && c.value.write.Wrote? {
      var x := c.value.bytes;
      NotifyOkCalls(sn, ChannelFilter(x));
      var pre := Calls(sn, ChannelFilter(x));
      assert e == pre + [StdoutWrite(x[..Min(c.value.write.count, |x|)])];
      forall p | 0 <= p < |e| && e[p].StdoutWrite?
        ensures FilteredAt(sn, e, p)
      {
        assert p == |sn|;
        assert e[p - |sn|..p] == pre;
      }
    } else {
      assert forall i :: 0 <= i < |e| ==> !e[i].StdoutWrite?;
      NoWritesNoObligation(sn, e);
    }
  }

  lemma StepFiltersPrecedeWrites(sn: seq<Sniffer>, ev: Event)
    ensures FiltersPrecedeWrites(sn, Step(sn, ev).effects)
  {
    match ev
    case Winch(c, l) =>
      var e := Step(sn, ev).effects;
      assert forall i :: 0 <= i < |e| ==> !e[i].StdoutWrite?;
      NoWritesNoObligation(sn, e);
    case Ready(c, s) =>
      var cp := ChannelPart(sn, c);
      ChannelPartFilters(sn, c);
      if cp.flow.Proceed? {
        var sp := StdinPart(sn, s);
        assert forall i :: 0 <= i < |sp.effects| ==> !sp.effects[i].StdoutWrite?;
        NoWritesNoObligation(sn, sp.effects);
        FiltersPrecedeWritesAppend(sn, cp.effects, sp.effects);
      }
  }

  /** Sniffers are notified before forwarding, on every script: no byte
    * reaches stdout that every sniffer's `channel_filter` did not see first. */
  lemma {:induction false} RelayFiltersPrecedeWrites(sn: seq<Sniffer>, script: seq<Event>)
    ensures FiltersPrecedeWrites(sn, Relay(sn, script).effects)
    decreases |script|
  {
    if script != [] {
      StepFiltersPrecedeWrites(sn, script[0]);
      if !Step(sn, script[0]).flow.Halt? {
        RelayFiltersPrecedeWrites(sn, script[1..]);
        FiltersPrecedeWritesAppend(sn, Step(sn, script[0]).effects, Relay(sn, script[1..]).effects);
      }
    }
  }

  /** EAGAIN on stdout: the chunk the sniffers saw is dropped, not retried,
    * and the stdin branch of that iteration is skipped. A channel timeout
    * is ignored. */
  lemma {:induction false} EagainDropsChunk(sn: seq<Sniffer>, x: string, s: Option<StdinRead>, rest: seq<Event>)
    requires x != [] && QuietRelay(sn)
    ensures Relay(sn, [Ready(Some(Data(x, WouldBlock)), s)] + rest) ==
              Run(Calls(sn, ChannelFilter(x)) + Relay(sn, rest).effects, Relay(sn, rest).exit)
    ensures Step(sn, Ready(Some(RecvTimeout), s)) == Step(sn, Ready(None, s))
  {
    NotifyQuiet(sn, ChannelFilter(x));
    assert ([Ready(Some(Data(x, WouldBlock)), s)] + rest)[1..] == rest;
  }

  /** The terminal is switched to raw mode once at entry and restored once,
    * as the last effect, however the loop ended. */
  lemma ShellRestoresOnce(sn: seq<Sniffer>, saved: TermMode, script: seq<Event>)
    requires Shell(sn, true, saved, script).exit != Blocked
    ensures var e := Shell(sn, true, saved, script).effects;
            |e| >= 2 && e[0] == TerminalRaw && e[|e| - 1] == TerminalRestore(saved) &&
            Count(e, TerminalRaw) == 1 && Count(e, TerminalRestore(saved)) == 1
  {
    var r := Relay(sn, script).effects;
    RelayDataPath(sn, script);
    assert TerminalRaw !in r && TerminalRestore(saved) !in r;
    assert multiset(r)[TerminalRaw] == 0 && multiset(r)[TerminalRestore(saved)] == 0;
    var e := [TerminalRaw] + r + [TerminalRestore(saved)];
    assert multiset(e) == multiset([TerminalRaw]) + multiset(r) + multiset([TerminalRestore(saved)]);
  }

  // ------------------------------------------------------- run_command

  /** `run_command` with sniffers whose `stdin_filter` does not raise: the
    * command reaches every sniffer once, in order, before the shell starts,
    * and the session then ends as the shell does. */
  lemma RunCommandNotifiesFirst(sn: seq<Sniffer>, command: string, stdinIsTty: bool, saved: TermMode, script: seq<Event>)
    requires Quiet(sn, StdinHook)
    ensures RunCommand(sn, command, stdinIsTty, saved, script) ==
              Run(Calls(sn, StdinFilter(command)) + Shell(sn, stdinIsTty, saved, script).effects,
                  Shell(sn, stdinIsTty, saved, script).exit)
  {
    NotifyQuiet(sn, StdinFilter(command));
  }

  /** The per-sniffer log of an executed command: the command itself, then
    * one hook per observed event up to the close. */
  lemma RunCommandPerSniffer(sn: seq<Sniffer>, command: string, saved: TermMode, script: seq<Event>, k: nat)
    requires Smooth(sn, script)
    requires k < |sn| && DistinctIds(sn)
    ensures HooksOf(RunCommand(sn, command, true, saved, script).effects, sn[k].id) ==
              [StdinFilter(command)] + BeforeClose(script, ObservedOf)
  {
    RunCommandNotifiesFirst(sn, command, true, saved, script);
    HooksOfCalls(sn, StdinFilter(command), k);
    RelayPerSniffer(sn, script, k);
    ShellHooks(sn, saved, script, sn[k].id);
    ProjectAppend(Calls(sn, StdinFilter(command)), Shell(sn, true, saved, script).effects, HookFor(sn[k].id));
  }

  /** Switching the terminal calls no sniffer. */
  lemma ShellHooks(sn: seq<Sniffer>, saved: TermMode, script: seq<Event>, id: nat)
    ensures HooksOf(Shell(sn, true, saved, script).effects, id) == HooksOf(Relay(sn, script).effects, id)
  {
    var f := HookFor(id);
    var rl := Relay(sn, script);
    var close := if rl.exit == Blocked then [] else [TerminalRestore(saved)];
    assert Shell(sn, true, saved, script).effects == [TerminalRaw] + rl.effects + close;
    ProjectOne(TerminalRaw, f);
    ProjectNothing(close, f);
    ProjectAppend([TerminalRaw], rl.effects, f);
    ProjectAppend([TerminalRaw] + rl.effects, close, f);
  }

  // ---------------------------------------------------------- read sizes

  /** Reads return no more than they were asked for: `recv(10240)` and
    * `os.read(stdin, 4096)`. */
  predicate Bounded(script: seq<Event>) {
    forall i :: 0 <= i < |script| ==> |ChunkOf(script[i])| <= ChannelReadSize && |TypedOf(script[i])| <= StdinReadSize
  }

  predicate WithinReadSizes(e: seq<Effect>) {
    forall i :: 0 <= i < |e| ==>
      (e[i].StdoutWrite? ==> |e[i].bytes| <= ChannelReadSize) &&
      (e[i].ChannelSend? ==> |e[i].bytes| <= StdinReadSize)
  }

  lemma WithinAppend(a: seq<Effect>, b: seq<Effect>)
    requires WithinReadSizes(a) && WithinReadSizes(b)
    ensures WithinReadSizes(a + b)
  {
    forall i | 0 <= i < |a + b|
      ensures ((a + b)[i].StdoutWrite? ==> |(a + b)[i].bytes| <= ChannelReadSize) &&
              ((a + b)[i].ChannelSend? ==> |(a + b)[i].bytes| <= StdinReadSize)
    {
      if i >= |a| { assert (a + b)[i] == b[i - |a|]; }
    }
  }

  lemma CallsWithin(e: seq<Effect>)
    requires forall i :: 0 <= i < |e| ==> e[i].Call?
    ensures WithinReadSizes(e)
  {
  }

  lemma ChannelPartWithin(sn: seq<Sniffer>, c: Option<ChannelRead>)
    requires c.Some? && c.value.Data? ==> |c.value.bytes| <= ChannelReadSize
    ensures WithinReadSizes(ChannelPart(sn, c).effects)
  {
    if c.Some? && c.value.Data? && c.value.bytes != [] {
      var x := c.value.bytes;
      var n := Notify(sn, ChannelFilter(x));
      CallsWithin(n.effects);
      if n.failure.None? && c.value.write.Wrote? {
        WithinAppend(n.effects, [StdoutWrite(x[..Min(c.value.write.count, |x|)])]);
      }
    }
  }

  lemma StdinPartWithin(sn: seq<Sniffer>, s: Option<StdinRead>)
    requires s.Some? && s.value.Input? ==> |s.value.bytes| <= StdinReadSize
    ensures WithinReadSizes(StdinPart(sn, s).effects)
  {
    if s.Some? && s.value.Input? {
      var b := s.value.bytes;
      var n := Notify(sn, StdinFilter(b));
      CallsWithin(n.effects);
      if n.failure.None? && s.value.send != SendRaised {
        WithinAppend(n.effects, [ChannelSend(b)]);
      }
    }
  }

  lemma StepWithinReadSizes(sn: seq<Sniffer>, ev: Event)
    requires |ChunkOf(ev)| <= ChannelReadSize && |TypedOf(ev)| <= StdinReadSize
    ensures WithinReadSizes(Step(sn, ev).effects)
  {
    match ev
    case Winch(c, l) =>
      var n := Notify(sn, Hook.Sigwinch(c, l));
      CallsWithin(n.effects);
      WithinAppend([ResizePty(c, l)], n.effects);
    case Ready(c, s) =>
      ChannelPartWithin(sn, c);
      StdinPartWithin(sn, s);
      WithinAppend(ChannelPart(sn, c).effects, StdinPart(sn, s).effects);
  }

  /** Nothing larger than one read reaches stdout or the channel at once. */
  lemma {:induction false} RelayWithinReadSizes(sn: seq<Sniffer>, script: seq<Event>)
    requires Bounded(script)
    ensures WithinReadSizes(Relay(sn, script).effects)
    decreases |script|
  {
    if script != [] {
      StepWithinReadSizes(sn, script[0]);
      if !Step(sn, script[0]).flow.Halt? {
        assert Bounded(script[1..]) by {
          forall i | 0 <= i < |script[1..]|
            ensures |ChunkOf(script[1..][i])| <= ChannelReadSize && |TypedOf(script[1..][i])| <= StdinReadSize
          {
            assert script[1..][i] == script[i + 1];
          }
        }
        RelayWithinReadSizes(sn, script[1..]);
      }
    }
  }

  // ------------------------------------------- SIGWINCH, as written

  /** Without a resize the loop as written is the intended loop. */
  lemma {:induction false} RelayAsWrittenWithoutResize(sn: seq<Sniffer>, script: seq<Event>)
    requires forall i :: 0 <= i < |script| ==> script[i].Ready?
    ensures RelayAsWritten(sn, script) == Relay(sn, script)
    decreases |script|
  {
    if script != [] {
      assert forall i :: 0 <= i < |script[1..]| ==> script[1..][i] == script[i + 1];
      RelayAsWrittenWithoutResize(sn, script[1..]);
    }
  }

  /** As written, a resize ends the relay: the pty is resized and the
    * sniffers told, and then the loop raises, so nothing after it is read.
    * The intended loop resumes waiting instead. */
  lemma ResizeEndsRelayAsWritten(sn: seq<Sniffer>, columns: int, lines: int, post: seq<Event>)
    ensures RelayAsWritten(sn, [Winch(columns, lines)] + post) ==
              Run(SigwinchRun(sn, columns, lines).effects,
                  Raised(if SigwinchRun(sn, columns, lines).failure.Some?
                         then SigwinchRun(sn, columns, lines).failure.value else SelectInterrupted))
    ensures Quiet(sn, WinchHook) ==>
              Relay(sn, [Winch(columns, lines)] + post) ==
                Run(SigwinchRun(sn, columns, lines).effects + Relay(sn, post).effects, Relay(sn, post).exit)
  {
    assert ([Winch(columns, lines)] + post)[1..] == post;
    if Quiet(sn, WinchHook) {
      NotifyQuiet(sn, Hook.Sigwinch(columns, lines));
    }
  }

  /** The discrepancy on a concrete script: a resize, then a one-byte chunk.
    * As written the chunk never reaches stdout and the session raises; the
    * intended loop prints it and goes on waiting. */
  lemma ResizeDropsOutputAsWritten()
    ensures var script := [Winch(80, 24), Ready(Some(Data("x", Wrote(1))), None)];
            Stdout(RelayAsWritten([], script).effects) == "" &&
            RelayAsWritten([], script).exit == Raised(SelectInterrupted) &&
            Stdout(Relay([], script).effects) == "x" &&
            Relay([], script).exit == Blocked
  {
    var script := [Winch(80, 24), Ready(Some(Data("x", Wrote(1))), None)];
    ResizeEndsRelayAsWritten([], 80, 24, script[1..]);
    assert [Winch(80, 24)] + script[1..] == script;
    var ready := Ready(Some(Data("x", Wrote(1))), None);
    assert Notify([], ChannelFilter("x")) == Notified([], None);
    assert Min(1, |"x"|) == 1 && "x"[..1] == "x";
    assert ChannelPart([], ready.channel) == Part([StdoutWrite("x")], Proceed);
    assert Step([], ready).effects == [StdoutWrite("x")];
    assert script[1..] == [ready] && [ready][1..] == [];
    var e := Relay([], script).effects;
    assert e == [ResizePty(80, 24)] + [StdoutWrite("x")];
    ProjectAppend([ResizePty(80, 24)], [StdoutWrite("x")], StdoutBytes);
    ProjectOne(ResizePty(80, 24), StdoutBytes);
    ProjectOne(StdoutWrite("x"), StdoutBytes);
  }
}
