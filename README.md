# Aker gateway core, modelled in Dafny

Aker is an SSH jump host. A user logs in to the gateway. The gateway then
either shows a host picker (the TUI) or, when the login carries a forced
command with a `host=` term, proxies straight to that host. The proxy path
runs a paramiko SSH client that relays bytes between the user's terminal and
the remote channel, and it hands every chunk to the attached sniffers (the
session recorders). This project models the parts of that path that decide
things:

- `Aker`: the `host=`/`port=` parser of `main`, the proxy screen size, the
  `SSH_CLIENT` split, `Configuration.get` with its arity dispatch, and the key
  choice of `User.get_priv_key`.
- `PyStr`: the Python string operations these use (`strip`, `split(' ')`,
  `split()`, `in`, `startswith`, `int()`), each stated against an independent
  characterisation.
- `Trace`: the effect trace. Every call the gateway makes to the outside
  world is one `Effect`: a sniffer hook, a stdout write, a channel send, an
  auth attempt, a close or the end callback. The trace and the terminal mode
  live in one `Process` object. `Notify` is the "for sniffer in
  self.sniffers" loop, including what a sniffer that lacks a hook or raises
  from it does.
- `Interactive`: specification functions for `interactive_shell`,
  `run_command` and `sigwinch` over a script of `select` wake-ups.
- `ClientSpec`: specification functions for `SSHClient.start_session`: the
  auth dispatch, `_start_session` and both teardown paths.
- `SSHClientModel`: class `SSHClient`, which holds the sniffer list, socket,
  channel and size fields. Its methods run the loops imperatively and are
  proved against the functions above.
- `SessionBase` and `Sessions`: the base `Session`, with its port conversion,
  `close_session` and `kill_session`, and `SSHSession`, with its delegations
  and the exception handling of `start_session`.
- `AkerMain`: `main` itself, as method `RunMain`, proved against the function
  `ProxyRun`, with lemmas about what a proxied login does end to end.

The outside world is passed in as parameters:

- `Remote`: whether the transport comes up, the two auth replies, whether
  the channel opens, and the script of readiness events.
- `Local`: the agent keys, the key file, `SSH_ORIGINAL_COMMAND`, whether
  stdin is a tty, and the typed password.
- `reachable`: the TCP connect outcome.
- The `LINES` and `COLUMNS` environment values.

A script that runs out while the loop still waits in `select` ends in
`Blocked`: no `finally` has run and the terminal is still raw.

Behaviour the model reproduces as written:

- A sniffer hook that raises aborts the rest of that notification round and
  the data path. The hooks are not isolated from each other.
- A normally completing session calls `session_end_callback` twice: once in
  `_start_session` and once in the `finally` of `start_session`. The socket
  is also closed twice.
- A rejected public key falls back to one prompted password attempt. It
  never falls back to the key file, because the key file is read only when
  the agent has no keys.
- The proxy screen size is `[LINES or 80, COLUMNS or 300]`, and
  `_start_session` unpacks it as `(columns, lines)`, so `LINES` is meant as
  the pty's column count. As written, only the defaults (80 columns, 300
  lines) reach the remote side. A value that is set is a `str`, which
  paramiko's `get_pty` cannot pack: it raises `struct.error` before the
  logs are set or a program starts, and `SSHSession.start_session`
  swallows it after one teardown (see Findings). The rest of the model
  requests the pty with the size as given.
- On a proxied login the remote side executes `SSH_ORIGINAL_COMMAND`
  verbatim, `host=` and `port=` terms included.
- The direct-target path never consults the user's allowed hosts or host
  groups.

## Model

| member | source | states |
|---|---|---|
| Aker.Lookup | aker.py:67-71 | ConfigParser `get`: the section's own option wins, else `DEFAULT`, else NoOptionError; NoSectionError exactly when the section is neither present nor `DEFAULT`; option names are lower-cased |
| Aker.Get | aker.py:64-73 | three arguments never give NoOptionError and fall back to the third argument; two arguments are a plain lookup; none raises IndexError; one (or four or more) looks up `args[0]` in `General` |
| Aker.GetArities | aker.py:64-73 | relates the arities: one argument equals the two-argument form in `General`; three arguments equal the two-argument form except that NoOptionError becomes the default; a missing section still raises |
| Aker.SourceAddress | aker.py:53-55 | the source ip and port, when present, are non-empty fields without whitespace; the only failure is IndexError |
| Aker.SourceAddressOfTwoWords | aker.py:53-55 | `"ip port"` with any whitespace separator gives exactly (ip, port) |
| Aker.SourceAddressOfSshd | aker.py:53-55 | the three-field `SSH_CLIENT` that sshd sets gives its first two fields |
| Aker.SourceAddressDefault | aker.py:53 | an unset `SSH_CLIENT` gives ("0.0.0.0", "0") |
| Aker.SourceAddressOneField | aker.py:55 | a one-field `SSH_CLIENT` raises IndexError |
| Aker.NewConfiguration | aker.py:52-62 | a bad `SSH_CLIENT` gives IndexError; the source address comes from the split; an empty file name reads nothing and always succeeds; otherwise `log_level` and `ssh_port` are the `General` lookups, construction succeeds exactly when both lookups do, and a failure is the first failing lookup's error |
| Aker.GetPrivKey | aker.py:85-100 | the agent is always asked first; the first agent key wins; the key file is tried exactly when the agent has none; the result is "Invalid Private Key" exactly when both are empty |
| Aker.LastWithPrefix | aker.py:184-188 | None exactly when no term starts with the prefix; otherwise the rest of the last term that does |
| Aker.ScanTerms | aker.py:182-188 | the loop over the terms yields the last `host=` value and the last `port=` value, with port 22 when there is none |
| Aker.CommandFor | aker.py:179-189 | host picker exactly when the stripped command lacks the substring `host=`; the assertion fails exactly when it contains `host=` but no term starts with it; otherwise proxy to the last `host=` and `port=` values |
| Aker.ParseCommand | aker.py:179-189 | the imperative parse in `main` yields `CommandFor` |
| Aker.HostTermMeansProxy | aker.py:180-186 | a term starting with `host=` implies the command contains `host=`, so the host-picker branch and the term loop agree |
| Aker.ExampleHostAndPort | aker.py:184-188 | `host=h port=p` targets h and port text p |
| Aker.ExampleHostOnly | aker.py:182-188 | `host=db1` has no `port=` term, so the port stays 22 |
| Aker.ExampleHostInsideTerm | aker.py:180-189 | `xhost=a` selects proxy mode but finds no host, so the assertion fails |
| Aker.ExampleEmptyHost | aker.py:186-189 | `host=` alone yields host "" |
| Aker.ExampleLastHostWins | aker.py:184-186 | a later `host=` term overrides an earlier one |
| PyStr.TrimLeft | aker.py:179 | leading whitespace removed: a suffix of the input whose dropped part is all whitespace and which does not start with whitespace |
| PyStr.TrimRight | aker.py:179 | trailing whitespace removed, symmetrically |
| PyStr.StripIsTrimmedSlice | aker.py:179 | `strip()` is a slice of the input, with only whitespace outside it and no whitespace at either end of it |
| PyStr.StripIdempotent | aker.py:179 | stripping twice is stripping once |
| PyStr.ContainsAt | aker.py:180 | `p in s` holds exactly when `p` occurs at some index of `s` |
| PyStr.Split | aker.py:184 | `split(' ')` yields at least one piece, none containing the separator, and joining them with the separator gives back the input |
| PyStr.SplitJoin | aker.py:184 | splitting a join of separator-free pieces gives back the pieces |
| PyStr.Word | aker.py:54-55 | the first field of `split()` is the longest whitespace-free prefix |
| PyStr.Fields | aker.py:54-55 | `split()` yields non-empty, whitespace-free fields |
| PyStr.FieldsEmpty | aker.py:54-55 | `split()` yields no field exactly when the text is all whitespace |
| PyStr.FieldsOfSpaced | aker.py:54-55 | words without whitespace, laid out with whitespace runs between them (and any run at either end), split back into exactly those words, in order |
| PyStr.SpacedFields | aker.py:54-55 | conversely, every text is its `split()` fields laid out with whitespace gaps, the first gap being its leading whitespace: no character other than whitespace is dropped |
| PyStr.FieldsOfWordThenSpace | aker.py:54-55 | a word followed by whitespace is the first field, and the rest is split on |
| PyStr.ParseDecimal | session.py:25 | `int()` accepts a decimal numeral padded with whitespace and gives its value |
| PyStr.ParseNegative | session.py:25 | `int()` accepts a minus sign followed by whitespace and then a decimal numeral, all padded with whitespace, and gives the negated value |
| SessionBase.PortNumber | session.py:25 | the default port stays 22; port text converts exactly when `int()` accepts it; a failure is ValueError of that text |
| SessionBase.PortNumberOfDecimal | session.py:25 | a padded decimal port converts to its value |
| SessionBase.EmptyPortRejected | session.py:25 | `port=` with nothing after it fails at construction |
| SessionBase.Session.constructor | session.py:21-29 | `host_user` is the core user's name, `host_port` the converted port, `src_port` the configuration's source port |
| SessionBase.Session.CloseSession | session.py:43-44 | each call appends exactly one end callback for this session |
| SessionBase.Session.KillSession | session.py:46-48 | does exactly what `close_session` does |
| Trace.Notify | SSHClient.py:36-38 | a notification round records only calls of that hook, and no more calls than there are sniffers |
| Trace.NotifyCalls | SSHClient.py:36-38 | a round calls a prefix of the sniffers it reaches, in order; it fails exactly when one of them lacks or raises from the hook, and otherwise calls all of them (for `set_logs`, the sniffers that have it) |
| Trace.NotifyQuiet | SSHClient.py:36-38 | when no sniffer fails on the hook, every sniffer is called once, in attachment order |
| Trace.NotifyNoIsolation | SSHClient.py:36-38 | the first failing sniffer ends the round: sniffers after it are not called, and its failure is the round's |
| Trace.WithSetLogs | SSHClient.py:99-105 | keeps exactly the sniffers that implement `set_logs`: none that lacks it, every one that has it, and no more than there were |
| Trace.WithSetLogsAppend | SSHClient.py:99-105 | the filtering keeps attachment order: it distributes over concatenation |
| Trace.WithSetLogsQuiet | SSHClient.py:99-105 | when no sniffer raises from `set_logs`, none of the kept ones fails the round |
| Trace.SetLogsSkipsMissing | SSHClient.py:99-105 | a missing `set_logs` is skipped, not fatal: exactly the sniffers that have it are called, in order |
| Trace.NotifyDataPath | SSHClient.py:167-168 | sniffer calls never write to stdout, send to the channel or resize the pty |
| Trace.HooksOfCalls | SSHClient.py:181-182 | in a full round each sniffer receives the hook exactly once |
| Trace.HooksOfOthers | SSHClient.py:181-182 | a round delivers nothing to a sniffer outside the list |
| Interactive.Step | SSHClient.py:154-184 | an iteration never asks for another round by itself; it returns exactly on a zero-length channel read; an EAGAIN `continue` ends the iteration after the filters, without the stdin branch and without leaving the loop |
| Interactive.StepAsWritten | SSHClient.py:128-155 | as written, a SIGWINCH runs the handler and then `select` raises EINTR, which leaves the loop; a readiness wake-up is the same iteration as `Step` |
| Interactive.RelayAsWrittenWithoutResize | SSHClient.py:154-184 | without a resize the loop as written and the resuming loop agree |
| Interactive.ResizeEndsRelayAsWritten | SSHClient.py:128-155 | as written, a resize ends the loop with the handler's effects and an EINTR (or the handler's failure); resuming the wait instead, the loop carries on with the remaining events |
| Interactive.ResizeDropsOutputAsWritten | SSHClient.py:155-173 | a resize followed by readable output: as written nothing reaches stdout and the session raises; resuming, the output is written and the loop keeps waiting |
| Interactive.RelayDataPath | SSHClient.py:154-184 | the loop produces only sniffer calls, stdout writes, channel sends and pty resizes |
| Interactive.RelayEndsAtFirstClose | SSHClient.py:163-166 | the first empty channel read ends the loop normally; later events are never consumed |
| Interactive.ChannelPartSmooth | SSHClient.py:161-178 | a readable chunk with a full write puts exactly that chunk on stdout; a timeout puts nothing |
| Interactive.StdinPartSmooth | SSHClient.py:179-184 | typed bytes are sent verbatim to the channel |
| Interactive.StepSmooth | SSHClient.py:154-184 | one smooth iteration writes its chunk, sends its input and applies its resize |
| Interactive.RelaySmooth | SSHClient.py:154-184 | with smooth events and quiet sniffers, stdout is the concatenation of the chunks before the first empty read, the channel receives exactly the typed bytes before it, pty resizes follow the notifications in order (so the last one is the final size), and the loop returns exactly when an empty read occurs |
| Interactive.ChannelPartObserved | SSHClient.py:161-173 | every sniffer's `channel_filter` receives the chunk |
| Interactive.StdinPartObserved | SSHClient.py:179-184 | every sniffer's `stdin_filter` receives the typed bytes |
| Interactive.StepObserved | SSHClient.py:154-184 | each sniffer receives the iteration's hooks: channel then stdin, or one `sigwinch` |
| Interactive.RelayPerSniffer | SSHClient.py:154-184 | each sniffer's call log is exactly the hooks of the events before the first empty read, in order, including one `sigwinch` per resize |
| Interactive.NotifyOkCalls | SSHClient.py:167-168 | a round that did not fail called every sniffer |
| Interactive.ChannelPartFilters | SSHClient.py:161-173 | the channel branch writes to stdout only right after every sniffer's `channel_filter` of a chunk the written bytes are a prefix of |
| Interactive.StepFiltersPrecedeWrites | SSHClient.py:161-173 | within one iteration a stdout write comes right after every sniffer's `channel_filter` of a chunk it is a prefix of |
| Interactive.RelayFiltersPrecedeWrites | SSHClient.py:161-173 | on every script, no byte reaches stdout before all sniffers have filtered it |
| Interactive.RunCommandNotifiesFirst | SSHClient.py:137-142 | `run_command` hands the command to every sniffer's `stdin_filter`, in order, then is exactly `interactive_shell` |
| Interactive.RunCommandPerSniffer | SSHClient.py:137-184 | with smooth events each sniffer receives the command first, then the hooks of the events before the first empty read |
| Interactive.ShellHooks | SSHClient.py:149-188 | switching the terminal calls no sniffer: a sniffer receives from the shell what it receives from the loop |
| Interactive.StepWithinReadSizes | SSHClient.py:163-180 | an iteration writes at most 10240 bytes to stdout and sends at most 4096 to the channel at a time |
| Interactive.RelayWithinReadSizes | SSHClient.py:163-180 | when the events respect the `recv(10240)` and `read(4096)` sizes, so does every stdout write and channel send of the loop |
| Interactive.EagainDropsChunk | SSHClient.py:174-178 | on EAGAIN the filtered chunk is dropped, not retried, and the stdin branch is skipped; a channel timeout is the same as no channel readiness |
| Interactive.ShellRestoresOnce | SSHClient.py:149-188 | raw mode once at entry and the saved attributes restored once, as the last effect, on every exit of the loop |
| ClientSpec.Authenticate | SSHClient.py:76-85 | a password secret tries password auth only; a key tries public key, and only a rejection leads to one prompted password attempt; success exactly when an attempt is accepted |
| ClientSpec.StartInnerAsWritten | SSHClient.py:107-110 | as written, with packable (default) dimensions or a refused channel it is the intended `_start_session` |
| ClientSpec.ProxySizePackable | aker.py:190 | the proxy's screen size can be packed exactly when neither `LINES` nor `COLUMNS` is set |
| ClientSpec.EnvironmentSizeStopsAsWritten | SSHClient.py:108-110 | as written, a dimension from the environment ends `_start_session` with `struct.error`: no pty request, no sniffer call, no program and no teardown; intended, the pty is requested with that size |
| ClientSpec.LinesSetStopsAsWritten | SSHClient.py:108-122 | with `LINES=24` the as-written session stops at `get_pty`, while the intended one requests a 24 by 300 pty and runs the program |
| ClientSpec.InnerShape | SSHClient.py:107-126 | `_start_session` opens the channel, requests the pty with the given size and sets sniffer logs, then runs the program; channel close and the four-step teardown follow only a normal return |
| ClientSpec.ClientShape | SSHClient.py:73-126 | `start_session` is auth, then `_start_session`, then the `finally`; after a normal return the teardown runs twice, after an exception once, and while blocked not at all |
| ClientSpec.BeforeTeardown | SSHClient.py:86-126 | nothing before the teardown tail closes anything or calls the end callback |
| ClientSpec.TransportDownNoTeardown | SSHClient.py:73-74 | a transport that fails to start raises before the `try`, so nothing is closed and no end callback fires |
| ClientSpec.ReturnTearsDownTwice | SSHClient.py:86-126 | a normal completion ends with channel close then close_session, transport close and socket close twice: two end callbacks |
| ClientSpec.RaiseTearsDownOnce | SSHClient.py:86-91 | an exception after the transport is up ends with close_session, transport close and socket close once |
| ClientSpec.BlockedNoTeardown | SSHClient.py:154-155 | a session still waiting in `select` has closed nothing |
| ClientSpec.EndCallbacks | SSHClient.py:86-126 | once the transport is up, the end callback fires twice after a normal return, once after an exception and never while waiting |
| ClientSpec.ShapeKinds | SSHClient.py:107-122 | the channel is reached exactly when auth succeeds and the channel opens; the program runs exactly when `set_logs` also succeeds |
| ClientSpec.PtyRequestedAsGiven | SSHClient.py:109-110 | the pty is requested with the stored size, and no other pty request occurs |
| ClientSpec.ShellOrCommand | SSHClient.py:116-122 | a shell is invoked exactly when `SSH_ORIGINAL_COMMAND` is unset, otherwise that command is executed, and exactly one of them happens |
| ClientSpec.ProgramInteractive | SSHClient.py:116-119 | the interactive program is shell invocation, raw mode, the relay, then the restore |
| ClientSpec.ProgramCommand | SSHClient.py:120-142 | the command program is the exec request, the command's `stdin_filter` round, raw mode, the relay, then the restore |
| ClientSpec.ClientRelaysFaithfully | SSHClient.py:116-122 | in a whole session, interactive or with a command, stdout is the chunks before the first empty read and the channel receives exactly the typed bytes before it |
| ClientSpec.TailCounts | SSHClient.py:87-91 | the teardown sequences hold the stated numbers of end callbacks, channel closes and socket closes |
| SSHClientModel.SSHClient.constructor | SSHClient.py:53-58 | no sniffers, socket, channel or size |
| SSHClientModel.SSHClient.AttachSniffer | SSHClient.py:33-34 | appends the sniffer at the end, nothing else changes |
| SSHClientModel.SSHClient.Attach | SSHClient.py:93-97 | the same as `attach_sniffer` |
| SSHClientModel.SSHClient.Broadcast | SSHClient.py:36-38 | the loop over the sniffers records `Notify` and stops at the first failure |
| SSHClientModel.SSHClient.StopSniffer | SSHClient.py:36-38 | `stop` to every sniffer in order, without isolation |
| SSHClientModel.SSHClient.SetSnifferLogs | SSHClient.py:99-105 | `set_logs` to every sniffer that has it |
| SSHClientModel.SSHClient.Connect | SSHClient.py:60-65 | stores the size, then connects to (ip, port); an unreachable host raises socket.error |
| SSHClientModel.SSHClient.Sigwinch | SSHClient.py:128-135 | resizes the remote pty, then notifies every sniffer |
| SSHClientModel.SSHClient.ChannelBranch | SSHClient.py:161-178 | the channel branch of one iteration, as `ChannelPart` |
| SSHClientModel.SSHClient.StdinBranch | SSHClient.py:179-184 | the stdin branch, as `StdinPart` |
| SSHClientModel.SSHClient.Iteration | SSHClient.py:155-184 | one wake-up, as `Step` |
| SSHClientModel.SSHClient.RelayLoop | SSHClient.py:154-184 | the `while True` loop over the script, as `Relay` |
| SSHClientModel.SSHClient.InteractiveShell | SSHClient.py:144-188 | as `Shell`; the terminal is back in its saved mode unless the loop is still waiting |
| SSHClientModel.SSHClient.RunCommand | SSHClient.py:137-142 | the command to every `stdin_filter`, then the shell |
| SSHClientModel.SSHClient.RunProgram | SSHClient.py:116-122 | shell or command, chosen by `SSH_ORIGINAL_COMMAND` |
| SSHClientModel.SSHClient.FinishSession | SSHClient.py:87-91 | close_session, transport close, socket close, in that order |
| SSHClientModel.SSHClient.GrantChannel | SSHClient.py:108-115 | opens the channel, requests the pty as (columns, lines) of the size, sets sniffer logs |
| SSHClientModel.SSHClient.CloseAll | SSHClient.py:123-126 | channel close, then the teardown |
| SSHClientModel.SSHClient.StartInner | SSHClient.py:107-126 | `_start_session`, as `ClientSpec.StartInner` |
| SSHClientModel.SSHClient.Login | SSHClient.py:76-85 | the auth dispatch, as `Authenticate` |
| SSHClientModel.SSHClient.StartSession | SSHClient.py:73-91 | `start_session`, as `ClientRun`, with the `finally` on every exit |
| Sessions.OnlyKeyFailureEscapes | session.py:61-66 | only the missing-key failure propagates out of `start_session`; every client exception is swallowed |
| Sessions.KeyedRun | session.py:61-66 | with a key, the session is the key lookups followed by the client run with the chosen key, with any client exception turned into a return |
| Sessions.AuthenticatesWithChosenKey | session.py:61-64 | the agent is consulted first, the key file only when the agent has no keys, the first auth attempt uses the chosen key, and a password is prompted only after a rejected key |
| Sessions.SSHSession.constructor | session.py:56-59 | a base session with the given fields and a fresh client bound to it |
| Sessions.SSHSession.AttachSniffer | session.py:31-32 | delegates to the client's `attach_sniffer` |
| Sessions.SSHSession.StopSniffer | session.py:34-35 | delegates to the client's `stop_sniffer` |
| Sessions.SSHSession.Connect | session.py:37-38 | connects the client to this session's host and `host_port` with the given size |
| Sessions.SSHSession.StartSession | session.py:61-66 | `start_session`, as `SessionRun`; with no key found the client's channel and socket are untouched, otherwise they are as the client's run with the chosen key leaves them |
| Sessions.NewSSHSession | session.py:56-59 | construction fails exactly when the port does not convert, with that error; otherwise the fields are as in `Session.__init__` |
| AkerMain.RunMain | aker.py:176-211 | `main`, as `ProxyRun`: host picker, failed assertion, or a proxied session |
| AkerMain.ProxyMain | aker.py:189-209 | the proxy branch of `main`, as `ProxySession` |
| AkerMain.Start | aker.py:201-209 | attach, connect, then `start_session` and `stop_sniffer`, or socket.error after the connect |
| AkerMain.Dial | aker.py:201-205 | the sniffer is attached, and the client connects to the session's host and port, with its channel untouched |
| AkerMain.Serve | aker.py:206-209 | `start_session`, then `stop_sniffer` in the `finally` |
| AkerMain.ServedShape | aker.py:206-209 | a served session is the key lookups, then the client run, then the sniffer stop unless still waiting |
| AkerMain.ProxyShape | aker.py:193-209 | a proxied login is the connect, the key lookups, the client run with the chosen key and the environment's screen size, then the stop |
| AkerMain.ConnectsToNamedHost | aker.py:193-205 | the first effect of a proxied login is the TCP connect to the parsed host and the converted port |
| AkerMain.IgnoresAllowedHosts | aker.py:181-209 | the user's allowed hosts and host groups do not affect a proxied login |
| AkerMain.UnreachableStopsNothing | aker.py:205 | an unreachable host raises from `connect`, before the `try`: no sniffer stop, no end callback |
| AkerMain.ServedStopsLast | aker.py:206-209 | the `finally` runs `stop_sniffer` last in every session that is not still waiting |
| AkerMain.StopsSnifferLast | aker.py:206-209 | a finished proxied login ends with the sniffer's `stop` |
| AkerMain.ProxyEndCallbacks | aker.py:168-173 | a proxied login fires the end callback twice after a normal return, once after a swallowed exception, and not while waiting |
| AkerMain.PtyFromEnvironment | aker.py:190 | the intended pty request carries `LINES` (default 80) as columns and `COLUMNS` (default 300) as lines, and there is no other |
| AkerMain.ExecsOriginalCommand | aker.py:179-209 | a proxied login executes the whole original command on the target and never invokes a shell |
| AkerMain.ProxyHasCommand | aker.py:179-180 | proxy mode needs `SSH_ORIGINAL_COMMAND` to be set |

## Left out

- The TUI path: `build_tui`, `init_connection` and the host list (aker.py:127-167, 211). `main` ends in `PickerStarted` there. Drawing and host selection are UI code.
- `Hosts`, the identity providers and `refresh_allowed_hosts`: the provider modules are not part of this model. What a user may reach is kept as the plain set the direct-target path ignores.
- `Aker.__init__` beyond the record it builds: logging setup, `getpass.getuser`, the global `config` and `kinit` via `os.popen`. These are process and system calls. The posix user and the configuration are inputs.
- ConfigParser file reading and `%(name)s` interpolation: the parsed file is the input `IniData`, and lookups return raw values.
- paramiko, sockets, `select`, `termios`/`tty`, `fcntl` and the `ioctl` console-size query: each is an abstract outcome in `Remote`, `Local` or the event script. The terminal is an opaque mode value.
- Signal registration and the SIGINT handler. A SIGWINCH is an explicit `Winch` event. The `EINTR` that Python 2's `select` raises after it is modelled once, in `StepAsWritten` and `RelayAsWritten` (see Findings); the rest of the model resumes the wait, and so do `SSHClientModel.SSHClient.Iteration`, `SSHClientModel.SSHClient.RelayLoop`, `SSHClientModel.SSHClient.InteractiveShell`, `SSHClientModel.SSHClient.GrantChannel`, `SSHClientModel.SSHClient.StartInner`, `SSHClientModel.SSHClient.StartSession`, `Sessions.SSHSession.StartSession`, `AkerMain.RunMain`, `AkerMain.ProxyMain`, `AkerMain.Start` and `AkerMain.Serve`.
- Interactive.RelayWithinReadSizes: the read sizes bound what the events carry (`Bounded`), because a library read is an input here; the lemma shows the loop never enlarges them.
- Partial sends from `channel.send`, exceptions raised inside the `finally` blocks, and failures of `get_pty` (other than the `struct.error` in Findings), `resize_pty` or `open_session` (other than the channel not opening). These are library failure modes the core does not handle.
- An AttributeError raised inside a sniffer's `set_logs` (not merely a missing method): it is treated as a missing `set_logs`.
- AkerMain.PtyFromEnvironment and ClientSpec.StartInner: they state the intended request. As written, a set `LINES` or `COLUMNS` makes `get_pty` fail; only `ClientSpec.StartInnerAsWritten` models that. The members that run once the request has been granted, `SSHClientModel.SSHClient.Iteration`, `SSHClientModel.SSHClient.RelayLoop`, `SSHClientModel.SSHClient.InteractiveShell` and `SSHClientModel.SSHClient.GrantChannel`, and the members built on `StartInner`, `SSHClientModel.SSHClient.StartInner`, `SSHClientModel.SSHClient.StartSession`, `Sessions.SSHSession.StartSession`, `AkerMain.RunMain`, `AkerMain.ProxyMain`, `AkerMain.Start` and `AkerMain.Serve`, all take the request to succeed with the size as given.
- SessionBase.PortNumber: any integer converts, as in `int()`. A port outside 0..65535 later makes `connect` raise OverflowError inside paramiko. That library call is not part of this model.
- `SSHSniffer` internals, what sniffers write, logging and uuid generation: sniffers are values with an id, the hooks they lack and the hooks they raise from. The uuid is an input.
- The `Session`/`SSHClient` back reference is modelled by composition. `SSHSession` owns a base `Session` and a client that refers to it, rather than by inheritance.
- Program outcomes in the end-to-end lemmas: the teardown, pty and exec lemmas of `ClientSpec` and `AkerMain` hold for every program outcome shaped like the one `run_command` or `interactive_shell` produces (`ProgramLike`). `ClientSpec.ProgramEffects` shows that the scripted outcome has that shape, so this generalises the statement rather than weakening it.
- Sessions.AuthenticatesWithChosenKey, and the AkerMain lemmas after it, require that a key exists. The case without one is stated separately by Sessions.OnlyKeyFailureEscapes.

## Findings

| source | as written | input that shows it | evidently intended | confidence | as-written member | corrected member |
|---|---|---|---|---|---|---|
| SSHClient.py:155 | the SIGWINCH handler (installed at line 112 without SA_RESTART) interrupts the wait: Python 2's `select` raises `select.error(EINTR)` after every resize, out of the `while True` loop, and the session ends | a resize, then a readable chunk `"x"` (`Interactive.ResizeDropsOutputAsWritten`) | the handler resizes the pty and notifies the sniffers, and the loop goes on waiting | not executed | Interactive.ResizeDropsOutputAsWritten | Interactive.RelaySmooth |
| SSHClient.py:110 | `os.getenv` returns the `LINES`/`COLUMNS` text as a `str` (aker.py:190), and paramiko's `get_pty` packs each dimension with `struct.pack('>I', n)`, so a set variable raises `struct.error` and the session runs nothing | `LINES=24` with a channel that opens (`ClientSpec.LinesSetStopsAsWritten`) | the pty is sized from the environment and the program runs | not executed | ClientSpec.LinesSetStopsAsWritten | ClientSpec.PtyRequestedAsGiven |
