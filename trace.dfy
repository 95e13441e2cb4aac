/** What the session core does to the world, as one ordered trace: every
  * sniffer hook call, every byte written to stdout or sent to the channel,
  * every authentication attempt and every close. The `Process` object holds
  * that trace and the mode of the local terminal. */
module Trace {
  import opened Basics
  import opened Errors
  import opened Aker

  datatype HookKind = StdinHook | ChannelHook | WinchHook | StopHook | SetLogsHook

  /** A call a session observer receives. */
  datatype Hook =
    | StdinFilter(data: string)
    | ChannelFilter(data: string)
    | Sigwinch(columns: int, lines: int)
    | Stop
    | SetLogs

  function KindOf(h: Hook): HookKind {
    match h
    case StdinFilter(_) => StdinHook
    case ChannelFilter(_) => ChannelHook
    case Sigwinch(_, _) => WinchHook
    case Stop => StopHook
    case SetLogs => SetLogsHook
  }

  /** A session observer: which hooks it has no method for, and which of its
    * hooks raise when called. */
  datatype Sniffer = Sniffer(id: nat, lacks: set<HookKind>, raises: set<HookKind>)

  /** The mode of the local terminal: the attributes `tcgetattr` returned, or
    * the raw, no-echo mode of the relay. */
  datatype TermMode = Attributes(saved: nat) | RawMode

  datatype Effect =
    | Call(sniffer: nat, hook: Hook)
    | StdoutWrite(bytes: string)
    | ChannelSend(bytes: string)
    | ResizePty(columns: int, lines: int)
    | TerminalRaw
    | TerminalRestore(mode: TermMode)
    | KeyLookup(source: KeySource)
    | TcpConnect(host: string, port: int)
    | AuthPassword(user: string, password: string)
    | AuthPublicKey(user: string, key: PrivateKey)
    | PasswordPrompt
    | OpenChannel
    | RequestPty(width: Dim, height: Dim)
    | InvokeShell
    | ExecCommand(command: string)
    | ChannelClose
    | SessionEnd(session: SessionId, user: string, host: string)
    | TransportClose
    | SocketClose

  /** The effects of the relay's data path. */
  predicate DataPath(x: Effect) {
    x.Call? || x.StdoutWrite? || x.ChannelSend? || x.ResizePty?
  }

  /** The effects of ending a session: closing the channel, the callback to
    * the core, closing the transport and the socket. */
  predicate Teardown(x: Effect) {
    x.ChannelClose? || x.SessionEnd? || x.TransportClose? || x.SocketClose?
  }

  /** The gateway process as the core sees it. */
  class Process {
    var trace: seq<Effect>
    var terminal: TermMode

    constructor (mode: TermMode)
      ensures trace == [] && terminal == mode
    {
      trace := [];
      terminal := mode;
    }
  }

  // ------------------------------------------------------------ projections

  /** The concatenation of `f` over the trace. */
  function Project<T>(e: seq<Effect>, f: Effect -> seq<T>): seq<T> {
    if e == [] then [] else f(e[0]) + Project(e[1..], f)
  }

  lemma {:induction false} ProjectAppend<T>(a: seq<Effect>, b: seq<Effect>, f: Effect -> seq<T>)
    ensures Project(a + b, f) == Project(a, f) + Project(b, f)
  {
    if a != [] {
      assert (a + b)[1..] == a[1..] + b;
      ProjectAppend(a[1..], b, f);
    } else {
      assert a + b == b;
    }
  }

  function StdoutBytes(x: Effect): string { if x.StdoutWrite? then x.bytes else [] }
  function SentBytes(x: Effect): string { if x.ChannelSend? then x.bytes else [] }
  function PtySize(x: Effect): seq<(int, int)> { if x.ResizePty? then [(x.columns, x.lines)] else [] }
  function HookFor(id: nat): Effect -> seq<Hook> {
    (x: Effect) => if x.Call? && x.sniffer == id then [x.hook] else []
  }
  /** Everything written to stdout. */
  function Stdout(e: seq<Effect>): string { Project(e, StdoutBytes) }
  /** Everything sent to the remote channel. */
  function Sent(e: seq<Effect>): string { Project(e, SentBytes) }
  /** The hooks sniffer `id` received, in order. */
  function HooksOf(e: seq<Effect>, id: nat): seq<Hook> { Project(e, HookFor(id)) }
  /** The remote pty sizes, in order. */
  function PtySizes(e: seq<Effect>): seq<(int, int)> { Project(e, PtySize) }
  /** How often `y` occurs. */
  function Count(e: seq<Effect>, y: Effect): nat { multiset(e)[y] }

  /** Regrouping a trace, for the steps where the solver needs it. */
  lemma Associative(a: seq<Effect>, b: seq<Effect>, c: seq<Effect>)
    ensures a + b + c == a + (b + c)
  {
  }

  /** `f` contributes nothing on any effect of `e`. */
  lemma {:induction false} ProjectNothing<T>(e: seq<Effect>, f: Effect -> seq<T>)
    requires forall i :: 0 <= i < |e| ==> f(e[i]) == []
    ensures Project(e, f) == []
  {
    if e != [] {
      ProjectNothing(e[1..], f);
    }
  }

  // ------------------------------------------------------------ notifying

  datatype Notified = Notified(effects: seq<Effect>, failure: Option<Fault>)

  /** The calls `hook` makes on each sniffer in `sn`, in order. */
  function Calls(sn: seq<Sniffer>, hook: Hook): (r: seq<Effect>)
    ensures |r| == |sn|
    ensures forall i :: 0 <= i < |sn| ==> r[i] == Call(sn[i].id, hook)
  {
    if sn == [] then [] else [Call(sn[0].id, hook)] + Calls(sn[1..], hook)
  }

  /** A sniffer the hook cannot pass cleanly: it lacks the hook or the hook raises. */
  predicate Troubled(s: Sniffer, k: HookKind) {
    k in s.lacks || k in s.raises
  }

  predicate Quiet(sn: seq<Sniffer>, k: HookKind) {
    forall i :: 0 <= i < |sn| ==> !Troubled(sn[i], k)
  }

  /** `for sniffer in self.sniffers: sniffer.<hook>(...)`: sniffers are
    * called in attachment order and the first exception ends the loop. A
    * missing method raises AttributeError, except for `set_logs`, whose
    * AttributeError `_set_sniffer_logs` catches. */
  function Notify(sn: seq<Sniffer>, hook: Hook): (r: Notified)
    ensures forall i :: 0 <= i < |r.effects| ==> r.effects[i].Call? && r.effects[i].hook == hook
    ensures |r.effects| <= |sn|
  {
    if sn == [] then Notified([], None)
    else
      var s := sn[0];
      var k := KindOf(hook);
      if k in s.lacks then
        if k == SetLogsHook then Notify(sn[1..], hook)
        else Notified([], Some(MissingHook(s.id)))
      else if k in s.raises then Notified([Call(s.id, hook)], Some(SnifferRaised(s.id)))
      else
        var rest := Notify(sn[1..], hook);
        Notified([Call(s.id, hook)] + rest.effects, rest.failure)
  }

  /** When no sniffer is troubled by the hook, every one is called, in order. */
  lemma {:induction false} NotifyQuiet(sn: seq<Sniffer>, hook: Hook)
    requires Quiet(sn, KindOf(hook))
    ensures Notify(sn, hook) == Notified(Calls(sn, hook), None)
  {
    if sn != [] {
      NotifyQuiet(sn[1..], hook);
    }
  }

  /** No isolation: the first troubled sniffer ends the round, and no later
    * sniffer hears of the call. */
  lemma {:induction false} NotifyNoIsolation(sn: seq<Sniffer>, hook: Hook, f: nat)
    requires KindOf(hook) != SetLogsHook
    requires f < |sn| && Troubled(sn[f], KindOf(hook))
    requires forall j :: 0 <= j < f ==> !Troubled(sn[j], KindOf(hook))
    ensures Notify(sn, hook) ==
              if KindOf(hook) in sn[f].lacks
              then Notified(Calls(sn[..f], hook), Some(MissingHook(sn[f].id)))
              else Notified(Calls(sn[..f], hook) + [Call(sn[f].id, hook)], Some(SnifferRaised(sn[f].id)))
  {
    if f > 0 {
      var rest := sn[1..];
      TroubleFreeTail(sn, KindOf(hook), f);
      NotifyNoIsolation(rest, hook, f - 1);
      CallsOfPrefix(sn, f, hook);
      Associative([Call(sn[0].id, hook)], Calls(rest[..f - 1], hook), [Call(sn[f].id, hook)]);
    } else {
      assert sn[..0] == [];
    }
  }

  lemma TroubleFreeTail(sn: seq<Sniffer>, k: HookKind, f: nat)
    requires 0 < f < |sn|
    requires forall j :: 0 <= j < f ==> !Troubled(sn[j], k)
    ensures sn[1..][f - 1] == sn[f] && !Troubled(sn[0], k)
    ensures forall j :: 0 <= j < f - 1 ==> !Troubled(sn[1..][j], k)
  {
    forall j | 0 <= j < f - 1 ensures !Troubled(sn[1..][j], k) {
      assert sn[1..][j] == sn[j + 1];
    }
  }

  lemma CallsOfPrefix(sn: seq<Sniffer>, f: nat, hook: Hook)
    requires 0 < f <= |sn|
    ensures Calls(sn[..f], hook) == [Call(sn[0].id, hook)] + Calls(sn[1..][..f - 1], hook)
  {
    assert sn[1..][..f - 1] == sn[..f][1..];
  }

  /** The sniffers that implement `set_logs`, in attachment order. */
  function WithSetLogs(sn: seq<Sniffer>): (r: seq<Sniffer>)
    ensures |r| <= |sn|
    ensures forall i :: 0 <= i < |r| ==> SetLogsHook !in r[i].lacks
    ensures forall x :: x in r <==> x in sn && SetLogsHook !in x.lacks
  {
    if sn == [] then []
    else if SetLogsHook in sn[0].lacks then WithSetLogs(sn[1..])
    else [sn[0]] + WithSetLogs(sn[1..])
  }

  /** Filtering keeps the order: it distributes over concatenation. */
  lemma {:induction false} WithSetLogsAppend(a: seq<Sniffer>, b: seq<Sniffer>)
    ensures WithSetLogs(a + b) == WithSetLogs(a) + WithSetLogs(b)
    decreases |a|
  {
    if a == [] {
      assert a + b == b;
    } else {
      assert (a + b)[1..] == a[1..] + b;
      WithSetLogsAppend(a[1..], b);
    }
  }

  lemma QuietCons(s: Sniffer, sn: seq<Sniffer>, k: HookKind)
    ensures Quiet([s] + sn, k) <==> !Troubled(s, k) && Quiet(sn, k)
  {
    var all := [s] + sn;
    if Quiet(sn, k) && !Troubled(s, k) {
      forall i | 0 <= i < |all| ensures !Troubled(all[i], k) {
        if i > 0 { assert all[i] == sn[i - 1]; }
      }
    }
    if Quiet(all, k) {
      assert all[0] == s;
      forall i | 0 <= i < |sn| ensures !Troubled(sn[i], k) {
        assert sn[i] == all[i + 1];
      }
    }
  }

  lemma CallsCons(s: Sniffer, sn: seq<Sniffer>, n: nat, hook: Hook)
    requires n <= |sn|
    ensures Calls(([s] + sn)[..n + 1], hook) == [Call(s.id, hook)] + Calls(sn[..n], hook)
  {
    assert ([s] + sn)[..n + 1][1..] == sn[..n];
  }

  /** The sniffers a hook is meant for: `set_logs` goes to those that have
    * it, every other hook to all of them. */
  function Reached(sn: seq<Sniffer>, hook: Hook): seq<Sniffer> {
    if KindOf(hook) == SetLogsHook then WithSetLogs(sn) else sn
  }

  /** A round calls a prefix of the sniffers the hook is meant for, one
    * call each, in order; it fails exactly when one of them is troubled,
    * and otherwise calls all of them. */
  lemma {:induction false} NotifyCalls(sn: seq<Sniffer>, hook: Hook)
    ensures var r, reach := Notify(sn, hook), Reached(sn, hook);
            |r.effects| <= |reach| && r.effects == Calls(reach[..|r.effects|], hook) &&
            (r.failure == None <==> Quiet(reach, KindOf(hook))) &&
            (r.failure == None ==> r.effects == Calls(reach, hook))
  {
    var r, reach := Notify(sn, hook), Reached(sn, hook);
    var k := KindOf(hook);
    if sn == [] {
      assert reach == [];
    } else {
      var s, rest := sn[0], sn[1..];
      if k in s.lacks && k == SetLogsHook {
        NotifyCalls(rest, hook);
      } else if k in s.lacks || k in s.raises {
        assert reach[0] == s;
        assert !Quiet(reach, k);
        if k !in s.lacks {
          assert reach[..1] == [s];
        } else {
          assert reach[..0] == [];
        }
      } else {
        NotifyCalls(rest, hook);
        var reach' := Reached(rest, hook);
        assert reach == [s] + reach';
        QuietCons(s, reach', k);
        CallsCons(s, reach', |Notify(rest, hook).effects|, hook);
        assert reach[..|reach|] == reach;
      }
    }
  }

  /** `_set_sniffer_logs` calls exactly the sniffers that have `set_logs`,
    * in order, when none of those calls raises. */
  lemma {:induction false} SetLogsSkipsMissing(sn: seq<Sniffer>)
    requires forall i :: 0 <= i < |sn| ==> SetLogsHook !in sn[i].raises
    ensures Notify(sn, SetLogs) == Notified(Calls(WithSetLogs(sn), SetLogs), None)
  {
    WithSetLogsQuiet(sn);
    NotifyCalls(sn, SetLogs);
  }

  lemma {:induction false} WithSetLogsQuiet(sn: seq<Sniffer>)
    requires forall i :: 0 <= i < |sn| ==> SetLogsHook !in sn[i].raises
    ensures Quiet(WithSetLogs(sn), SetLogsHook)
  {
    if sn != [] {
      assert forall i :: 0 <= i < |sn| - 1 ==> sn[1..][i] == sn[i + 1];
      WithSetLogsQuiet(sn[1..]);
      if SetLogsHook !in sn[0].lacks {
        QuietCons(sn[0], WithSetLogs(sn[1..]), SetLogsHook);
      }
    }
  }

  lemma {:induction false} NotifyDataPath(sn: seq<Sniffer>, hook: Hook)
    ensures forall x :: x in Notify(sn, hook).effects ==> DataPath(x)
    ensures Stdout(Notify(sn, hook).effects) == [] && Sent(Notify(sn, hook).effects) == []
    ensures PtySizes(Notify(sn, hook).effects) == []
  {
    var e := Notify(sn, hook).effects;
    CallsProjectEmpty(e);
  }

  /** Calls carry no stdout bytes, no channel bytes and no resize. */
  lemma {:induction false} CallsProjectEmpty(e: seq<Effect>)
    requires forall i :: 0 <= i < |e| ==> e[i].Call?
    ensures Stdout(e) == [] && Sent(e) == [] && PtySizes(e) == []
  {
    if e != [] {
      CallsProjectEmpty(e[1..]);
    }
  }

  /** With distinct ids, the sniffer with id `sn[k].id` sees one call. */
  lemma {:induction false} HooksOfCalls(sn: seq<Sniffer>, hook: Hook, k: nat)
    requires k < |sn|
    requires DistinctIds(sn)
    ensures HooksOf(Calls(sn, hook), sn[k].id) == [hook]
  {
    var id := sn[k].id;
    HooksOfCallsHead(sn, hook, id);
    DistinctTail(sn);
    if k == 0 {
      HooksOfOthers(sn[1..], hook, id);
    } else {
      assert sn[0].id != id;
      assert sn[1..][k - 1] == sn[k];
      HooksOfCalls(sn[1..], hook, k - 1);
    }
  }

  lemma HooksOfCallsHead(sn: seq<Sniffer>, hook: Hook, id: nat)
    requires sn != []
    ensures HooksOf(Calls(sn, hook), id) ==
              (if sn[0].id == id then [hook] else []) + HooksOf(Calls(sn[1..], hook), id)
  {
    var c := Calls(sn, hook);
    assert c[1..] == Calls(sn[1..], hook);
  }

  /** No two sniffers share an id. */
  predicate DistinctIds(sn: seq<Sniffer>) {
    forall i, j :: 0 <= i < j < |sn| ==> sn[i].id != sn[j].id
  }

  lemma DistinctTail(sn: seq<Sniffer>)
    requires sn != []
    requires DistinctIds(sn)
    ensures DistinctIds(sn[1..])
    ensures forall i :: 0 <= i < |sn| - 1 ==> sn[1..][i].id != sn[0].id
  {
    var rest := sn[1..];
    forall i, j | 0 <= i < j < |rest| ensures rest[i].id != rest[j].id {
      assert rest[i] == sn[i + 1] && rest[j] == sn[j + 1];
    }
    forall i | 0 <= i < |rest| ensures rest[i].id != sn[0].id {
      assert rest[i] == sn[i + 1];
    }
  }

  lemma {:induction false} HooksOfOthers(sn: seq<Sniffer>, hook: Hook, id: nat)
    requires forall i :: 0 <= i < |sn| ==> sn[i].id != id
    ensures HooksOf(Calls(sn, hook), id) == []
  {
    if sn != [] {
      HooksOfOthers(sn[1..], hook, id);
    }
  }
}
