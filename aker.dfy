/** The pure and loop-level parts of `aker.py`: the SSH_CLIENT split and the
  * arity-dispatching lookup of `Configuration`, the credential choice of
  * `User.get_priv_key`, and the forced-command parser of `main`. */
module Aker {
  import opened Basics
  import opened PyStr
  import opened Errors

  type SessionId = nat

  // ------------------------------------------------------------ ConfigParser

  /** What `ConfigParser.read` leaves behind: the named sections (DEFAULT is
    * never among them) and the DEFAULT section's options. Option names are
    * stored lower-cased, as `optionxform` leaves them. */
  datatype IniData = IniData(sections: map<string, map<string, string>>, defaults: map<string, string>)

  const EmptyIni := IniData(map[], map[])
  const DefaultSection := "DEFAULT"
  const GeneralSection := "General"

  function LowerChar(c: char): char {
    if 'A' <= c <= 'Z' then (c as int + 32) as char else c
  }

  /** `str.lower()` on a byte string: ASCII letters only. */
  function Lower(s: string): string {
    seq(|s|, i requires 0 <= i < |s| => LowerChar(s[i]))
  }

  /** `ConfigParser.get(section, option)`: the option is looked up under its
    * lower-cased name in the section, then among the defaults. */
  function Lookup(ini: IniData, section: string, option: string): (r: Result<string, Fault>)
    ensures r.Err? && r.error.NoSectionError? <==> section != DefaultSection && section !in ini.sections
    ensures r.Err? ==> r.error == NoSectionError(section) || r.error == NoOptionError(Lower(option), section)
    ensures section in ini.sections && Lower(option) in ini.sections[section] ==>
              r == Ok(ini.sections[section][Lower(option)])
    ensures (section in ini.sections || section == DefaultSection) &&
            (section in ini.sections ==> Lower(option) !in ini.sections[section]) ==>
              r == (if Lower(option) in ini.defaults then Ok(ini.defaults[Lower(option)])
                    else Err(NoOptionError(Lower(option), section)))
  {
    if section !in ini.sections && section != DefaultSection then Err(NoSectionError(section))
    else
      var own := if section in ini.sections then ini.sections[section] else map[];
      var key := Lower(option);
      if key in own then Ok(own[key])
      else if key in ini.defaults then Ok(ini.defaults[key])
      else Err(NoOptionError(key, section))
  }

  /** `Configuration.get(*args)`. Three arguments: (section, option, default),
    * where only a missing option yields the default; two: (section, option);
    * none: IndexError; one, or four and more: option `args[0]` of General. */
  function Get(ini: IniData, args: seq<string>): (r: Result<string, Fault>)
    ensures |args| == 3 ==> !(r.Err? && r.error.NoOptionError?)
    ensures |args| == 3 && r.Err? ==> r == Err(NoSectionError(args[0]))
    ensures |args| == 3 && Lookup(ini, args[0], args[1]).Ok? ==> r == Lookup(ini, args[0], args[1])
    ensures |args| == 3 && (args[0] in ini.sections || args[0] == DefaultSection) && r != Lookup(ini, args[0], args[1]) ==>
              r == Ok(args[2])
    ensures |args| == 2 ==> r == Lookup(ini, args[0], args[1])
    ensures |args| == 0 <==> r == Err(IndexError)
    ensures |args| == 1 || |args| >= 4 ==> r == Lookup(ini, GeneralSection, args[0])
  {
    if |args| == 3 then
      match Lookup(ini, args[0], args[1])
      case Err(NoOptionError(_, _)) => Ok(args[2])
      case other => other
    else if |args| == 2 then Lookup(ini, args[0], args[1])
    else if |args| == 0 then Err(IndexError)
    else Lookup(ini, GeneralSection, args[0])
  }

  /** One argument reads General; a default never hides a missing section. */
  lemma GetArities(ini: IniData, section: string, option: string, default: string)
    ensures Get(ini, [option]) == Get(ini, [GeneralSection, option])
    ensures Get(ini, [section, option, default]) ==
              (if Get(ini, [section, option]).Err? && Get(ini, [section, option]).error.NoOptionError?
               then Ok(default) else Get(ini, [section, option]))
    ensures section != DefaultSection && section !in ini.sections ==>
              Get(ini, [section, option, default]) == Err(NoSectionError(section))
  {
  }

  // ------------------------------------------------------------ SSH_CLIENT

  const DefaultRemote := "0.0.0.0 0"

  /** The source ip and port: the first two whitespace-separated fields of
    * SSH_CLIENT (or of "0.0.0.0 0" when it is unset); fewer than two fields
    * raise IndexError. */
  function SourceAddress(sshClient: Option<string>): (r: Result<(string, string), Fault>)
    ensures r.Err? ==> r.error == IndexError
    ensures r.Ok? ==> r.value.0 != "" && NoSpace(r.value.0) && r.value.1 != "" && NoSpace(r.value.1)
  {
    var remote := if sshClient.Some? then sshClient.value else DefaultRemote;
    var fields := Fields(remote);
    if |fields| < 2 then Err(IndexError) else Ok((fields[0], fields[1]))
  }

  /** Two whitespace-separated words are the source ip and port. */
  lemma {:induction false} SourceAddressOfTwoWords(ip: string, gap: char, port: string)
    requires ip != [] && NoSpace(ip) && port != [] && NoSpace(port) && IsSpace(gap)
    ensures SourceAddress(Some(ip + [gap] + port)) == Ok((ip, port))
  {
    FieldsOfWordThenSpace(ip, gap, port);
    FieldsOfWord(port);
  }

  /** Without SSH_CLIENT the source is 0.0.0.0, port 0. */
  lemma {:induction false} SourceAddressDefault()
    ensures SourceAddress(None) == Ok(("0.0.0.0", "0"))
  {
    var ip, port := "0.0.0.0", "0";
    assert NoSpace(ip) && NoSpace(port);
    SourceAddressOfTwoWords(ip, ' ', port);
    assert DefaultRemote == ip + [' '] + port;
  }

  /** sshd sets SSH_CLIENT to "client-ip client-port server-port": the first
    * two fields are the source address, whatever follows them. */
  lemma {:induction false} SourceAddressOfSshd(ip: string, port: string, gap: char, gap': char, rest: string)
    requires ip != [] && NoSpace(ip) && port != [] && NoSpace(port)
    requires IsSpace(gap) && IsSpace(gap')
    ensures SourceAddress(Some(ip + [gap] + port + [gap'] + rest)) == Ok((ip, port))
  {
    var s := ip + [gap] + port + [gap'] + rest;
    assert s == ip + [gap] + (port + [gap'] + rest);
    FieldsOfWordThenSpace(ip, gap, port + [gap'] + rest);
    FieldsOfWordThenSpace(port, gap', rest);
  }

  /** A single field is not enough: `split()[1]` raises. */
  lemma {:induction false} SourceAddressOneField(ip: string)
    requires ip != [] && NoSpace(ip)
    ensures SourceAddress(Some(ip)) == Err(IndexError)
  {
    FieldsOfWord(ip);
  }

  // ---------------------------------------------------------- Configuration

  /** The fields `Configuration.__init__` sets. `logLevel` and `sshPort` are
    * only set when a file name is given. */
  datatype Configuration = Configuration(
    srcIp: string, srcPort: string, sessionUuid: SessionId, ini: IniData,
    logLevel: Option<string>, sshPort: Option<string>)

  /** `Configuration(filename)`, where `ini` is what reading `filename` gave
    * and `uuid` the value of `uuid.uuid1()`. Failures surface in the order
    * the constructor meets them. */
  function NewConfiguration(sshClient: Option<string>, uuid: SessionId, filename: string, ini: IniData)
    : (r: Result<Configuration, Fault>)
    ensures SourceAddress(sshClient).Err? ==> r == Err(IndexError)
    ensures r.Ok? ==> SourceAddress(sshClient) == Ok((r.value.srcIp, r.value.srcPort)) && r.value.sessionUuid == uuid
    ensures r.Ok? && filename == "" ==> r.value.ini == EmptyIni && r.value.logLevel.None? && r.value.sshPort.None?
    ensures r.Ok? && filename != "" ==> r.value.ini == ini && r.value.logLevel.Some? && r.value.sshPort.Some?
    ensures r.Ok? && filename != "" ==> Lookup(ini, GeneralSection, "log_level") == Ok(r.value.logLevel.value)
    ensures r.Ok? && filename != "" ==> Lookup(ini, GeneralSection, "ssh_port") == Ok(r.value.sshPort.value)
    ensures r.Err? && SourceAddress(sshClient).Ok? ==> filename != ""
    ensures SourceAddress(sshClient).Ok? &&
            (filename == "" ||
             (Lookup(ini, GeneralSection, "log_level").Ok? && Lookup(ini, GeneralSection, "ssh_port").Ok?)) ==>
              r.Ok?
    ensures r.Err? && SourceAddress(sshClient).Ok? ==>
              r.error == (if Lookup(ini, GeneralSection, "log_level").Err?
                          then Lookup(ini, GeneralSection, "log_level").error
                          else Lookup(ini, GeneralSection, "ssh_port").error)
  {
    match SourceAddress(sshClient)
    case Err(e) => Err(e)
    case Ok(addr) =>
      if filename == "" then Ok(Configuration(addr.0, addr.1, uuid, EmptyIni, None, None))
      else
        match Lookup(ini, GeneralSection, "log_level")
        case Err(e) => Err(e)
        case Ok(level) =>
          match Lookup(ini, GeneralSection, "ssh_port")
          case Err(e) => Err(e)
          case Ok(port) => Ok(Configuration(addr.0, addr.1, uuid, ini, Some(level), Some(port)))
  }

  // ------------------------------------------------------------ credentials

  /** An RSA or agent key, known only by its fingerprint. */
  datatype PrivateKey = PrivateKey(fingerprint: string)

  /** Where `get_priv_key` looked: the running agent, or ~/.ssh/id_rsa. */
  datatype KeySource = Agent | KeyFile

  datatype KeyChoice = KeyChoice(tried: seq<KeySource>, key: Result<PrivateKey, Fault>)

  /** `User.get_priv_key`: the agent's first key if it offers any; only
    * otherwise the key file, whose failure to load raises "Invalid Private
    * Key". `keyFile` is the outcome of loading ~/.ssh/id_rsa. */
  function GetPrivKey(agentKeys: seq<PrivateKey>, keyFile: Option<PrivateKey>): (c: KeyChoice)
    ensures |c.tried| >= 1 && c.tried[0] == Agent
    ensures KeyFile in c.tried <==> agentKeys == []
    ensures agentKeys != [] ==> c.key == Ok(agentKeys[0])
    ensures agentKeys == [] ==> c.key == (if keyFile.Some? then Ok(keyFile.value) else Err(InvalidPrivateKey))
    ensures c.key.Err? <==> agentKeys == [] && keyFile == None
  {
    if |agentKeys| > 0 then KeyChoice([Agent], Ok(agentKeys[0]))
    else match keyFile
      case Some(k) => KeyChoice([Agent, KeyFile], Ok(k))
      case None => KeyChoice([Agent, KeyFile], Err(InvalidPrivateKey))
  }

  /** The user the gateway acts for, with what the identity provider allowed. */
  datatype User = User(name: string, allowedHosts: set<string>, hostgroups: set<string>)

  /** The `Aker` core object as sessions see it. */
  datatype Core = Core(posixUser: string, config: Configuration, user: User)

  // ------------------------------------------------- forced-command parsing

  /** The `port` variable of `main`: the integer 22 until a `port=` token
    * replaces it with that token's raw text. */
  datatype PortArg = DefaultPort(number: int) | PortText(text: string)

  /** What `main` does with SSH_ORIGINAL_COMMAND. */
  datatype Command =
    | HostPicker                              // no "host=" anywhere: the TUI runs
    | ProxyTo(host: string, port: PortArg)    // direct proxy to this target
    | AssertionFailed                         // "host=" occurs, but no token starts with it

  const HostPrefix := "host="
  const PortPrefix := "port="
  const DefaultSshPort := 22

  /** The text after `prefix` in the last term that starts with it. */
  function LastWithPrefix(terms: seq<string>, prefix: string): (r: Option<string>)
    ensures r.None? <==> forall i :: 0 <= i < |terms| ==> !StartsWith(terms[i], prefix)
    ensures r.Some? ==> exists i :: 0 <= i < |terms| && StartsWith(terms[i], prefix) &&
                          r.value == terms[i][|prefix|..] &&
                          forall j :: i < j < |terms| ==> !StartsWith(terms[j], prefix)
  {
    if terms == [] then None
    else
      var last := terms[|terms| - 1];
      if StartsWith(last, prefix) then Some(last[|prefix|..])
      else
        var r := LastWithPrefix(terms[..|terms| - 1], prefix);
        assert forall i :: 0 <= i < |terms| - 1 ==> terms[..|terms| - 1][i] == terms[i];
        r
  }

  function PortOf(found: Option<string>): PortArg {
    if found.Some? then PortText(found.value) else DefaultPort(DefaultSshPort)
  }

  /** The `for term in command.split(' ')` loop of `main`: each `host=` or
    * `port=` term overwrites the variable, so the last one wins. */
  method ScanTerms(terms: seq<string>) returns (host: Option<string>, port: PortArg)
    ensures host == LastWithPrefix(terms, HostPrefix)
    ensures port == PortOf(LastWithPrefix(terms, PortPrefix))
  {
    port := DefaultPort(DefaultSshPort);
    host := None;
    for i := 0 to |terms|
      invariant host == LastWithPrefix(terms[..i], HostPrefix)
      invariant port == PortOf(LastWithPrefix(terms[..i], PortPrefix))
    {
      var term := terms[i];
      assert terms[..i + 1][..i] == terms[..i];
      if StartsWith(term, HostPrefix) {
        host := Some(term[5..]);
      }
      if StartsWith(term, PortPrefix) {
        port := PortText(term[5..]);
      }
    }
    assert terms[..|terms|] == terms;
  }

  /** `main`'s decision: proxy mode iff the stripped command contains
    * "host=" anywhere; the target is then taken from the space-split terms,
    * and `assert host is not None` fails when no term starts with "host=". */
  function CommandFor(original: Option<string>): (c: Command)
    ensures var command := Strip(if original.Some? then original.value else "");
            var terms := Split(command, ' ');
            (c == HostPicker <==> !Contains(command, HostPrefix)) &&
            (c == AssertionFailed <==> Contains(command, HostPrefix) && LastWithPrefix(terms, HostPrefix).None?) &&
            (c.ProxyTo? ==> Some(c.host) == LastWithPrefix(terms, HostPrefix) &&
                            c.port == PortOf(LastWithPrefix(terms, PortPrefix)))
  {
    var command := Strip(if original.Some? then original.value else "");
    if !Contains(command, HostPrefix) then HostPicker
    else
      var terms := Split(command, ' ');
      match LastWithPrefix(terms, HostPrefix)
      case None => AssertionFailed
      case Some(h) => ProxyTo(h, PortOf(LastWithPrefix(terms, PortPrefix)))
  }

  /** The statements of `main` that compute the decision, with the loop. */
  method ParseCommand(original: Option<string>) returns (c: Command)
    ensures c == CommandFor(original)
  {
    var command := Strip(if original.Some? then original.value else "");
    if !Contains(command, HostPrefix) {
      return HostPicker;
    }
    var host, port := ScanTerms(Split(command, ' '));
    if host == None {
      return AssertionFailed;
    }
    c := ProxyTo(host.value, port);
  }

  /** Piece `i` of a join sits inside it, at offset `k`. */
  lemma {:induction false} PieceInJoin(ts: seq<string>, sep: char, i: nat) returns (k: nat)
    requires i < |ts|
    ensures k + |ts[i]| <= |Join(ts, sep)| && Join(ts, sep)[k..k + |ts[i]|] == ts[i]
    decreases i
  {
    var s := Join(ts, sep);
    if i == 0 {
      k := 0;
    } else {
      var k' := PieceInJoin(ts[1..], sep, i - 1);
      k := |ts[0]| + 1 + k';
      assert s == ts[0] + [sep] + Join(ts[1..], sep);
      assert s[k..k + |ts[i]|] == Join(ts[1..], sep)[k'..k' + |ts[i]|];
    }
  }

  /** A term that starts with "host=" always puts `main` in proxy mode, so
    * the assertion can fail only when every "host=" sits inside a term. */
  lemma HostTermMeansProxy(command: string, i: nat)
    requires i < |Split(command, ' ')| && StartsWith(Split(command, ' ')[i], HostPrefix)
    ensures Contains(command, HostPrefix)
  {
    var ts := Split(command, ' ');
    var k := PieceInJoin(ts, ' ', i);
    ContainsSlice(command, k, ts[i], HostPrefix);
  }

  // Worked cases from the command grammar.

  /** "host=<h> port=<p>" targets host h on port text p. */
  lemma ExampleHostAndPort(h: string, p: string)
    requires ' ' !in h && ' ' !in p
    ensures LastWithPrefix(Split(HostPrefix + h + " " + PortPrefix + p, ' '), HostPrefix) == Some(h)
    ensures LastWithPrefix(Split(HostPrefix + h + " " + PortPrefix + p, ' '), PortPrefix) == Some(p)
  {
    var ts := [HostPrefix + h, PortPrefix + p];
    assert Join(ts, ' ') == HostPrefix + h + " " + PortPrefix + p;
    assert ' ' !in HostPrefix && ' ' !in PortPrefix;
    SplitJoin(ts, ' ');
    assert ts[1][..5] == PortPrefix && ts[0][..5] == HostPrefix;
    assert ts[..1] == [ts[0]];
  }

  lemma ExampleHostOnly()
    ensures LastWithPrefix(Split("host=db1", ' '), PortPrefix) == None
  {
    var ts := ["host=db1"];
    assert Join(ts, ' ') == "host=db1";
    assert ' ' !in ts[0];
    SplitJoin(ts, ' ');
    assert ts[0][..5][0] == 'h' && PortPrefix[0] == 'p';
  }

  lemma ExampleHostInsideTerm()
    ensures LastWithPrefix(Split("xhost=a", ' '), HostPrefix) == None && Contains("xhost=a", HostPrefix)
  {
    var ts := ["xhost=a"];
    assert Join(ts, ' ') == "xhost=a";
    assert ' ' !in ts[0];
    SplitJoin(ts, ' ');
    assert ts[0][..5][0] == 'x' && HostPrefix[0] == 'h';
    ContainsSlice("xhost=a", 1, "host=a", HostPrefix);
  }

  lemma ExampleEmptyHost()
    ensures LastWithPrefix(Split("host=", ' '), HostPrefix) == Some("")
  {
    SplitJoin(["host="], ' ');
  }

  /** Of two "host=" terms the later one wins. */
  lemma ExampleLastHostWins(a: string, b: string)
    requires ' ' !in a && ' ' !in b
    ensures LastWithPrefix(Split(HostPrefix + a + " " + HostPrefix + b, ' '), HostPrefix) == Some(b)
  {
    var ts := [HostPrefix + a, HostPrefix + b];
    assert Join(ts, ' ') == HostPrefix + a + " " + HostPrefix + b;
    assert ' ' !in HostPrefix;
    SplitJoin(ts, ' ');
    assert ts[1][..5] == HostPrefix;
  }

  // --------------------------------------------------------- screen size

  /** A terminal dimension as `os.getenv(name, default)` gives it: the
    * integer default, or the variable's text, never converted. */
  datatype Dim = Default(n: int) | FromEnv(text: string)

  /** The pair handed to the session; the client unpacks it as (columns, lines). */
  datatype ScreenSize = ScreenSize(first: Dim, second: Dim)

  /** `[os.getenv('LINES', 80), os.getenv('COLUMNS', 300)]`: LINES first. */
  function ProxyScreenSize(lines: Option<string>, columns: Option<string>): ScreenSize {
    ScreenSize(if lines.Some? then FromEnv(lines.value) else Default(80),
               if columns.Some? then FromEnv(columns.value) else Default(300))
  }
}
