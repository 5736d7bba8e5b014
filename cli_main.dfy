/**
 * The `ugudu` command's own decisions (`cmd/ugudu/main.go`): which daemon
 * client it builds, how `requireDaemon` reports a daemon that is missing
 * or silent, and where a `--spec` argument is looked up. The team-name
 * rewrite of `team create`, the 40-byte description cut of `team list`
 * and the display name of `team ps` are the same rules as the MCP
 * handlers' and the member's, and are modelled there.
 */
module Cli {
  import opened Wrappers
  import opened GoStrings
  import opened FilePath

  /** A daemon client: over TCP to `baseURL`, or over the Unix socket at `socket`. */
  datatype Client = Remote(baseURL: string) | Local(socket: string)

  /**
   * `getClient`: the remote client exactly when `--host` is set; otherwise
   * `daemon.NewClient` on `--socket`, where an empty flag falls back to
   * the socket `findSocket` locates (`found`, empty when there is none).
   */
  function GetClient(remoteAddr: string, socketPath: string, found: string): (r: Result<Client, string>)
    ensures remoteAddr != "" <==> r.Ok? && r.value.Remote?
    ensures remoteAddr != "" ==> r == Ok(Remote("http://" + remoteAddr))
    ensures remoteAddr == "" && socketPath != "" ==> r == Ok(Local(socketPath))
    ensures remoteAddr == "" && socketPath == "" ==>
      r == if found == "" then Err("daemon not running (no socket found)") else Ok(Local(found))
  {
    if remoteAddr != "" then Ok(Remote("http://" + remoteAddr))
    else
      var socket := if socketPath == "" then found else socketPath;
      if socket == "" then Err("daemon not running (no socket found)") else Ok(Local(socket))
  }

  /** An explicit `--socket` always wins over the located one. */
  lemma SocketFlagWins(socketPath: string, found1: string, found2: string)
    requires socketPath != ""
    ensures GetClient("", socketPath, found1) == GetClient("", socketPath, found2)
  {
  }

  /**
   * `requireDaemon`: the client, once `ping` (the error of `Client.Ping`
   * on it, if any) succeeds; each failure names the command to start the
   * daemon and the cause.
   */
  function RequireDaemon(client: Result<Client, string>, ping: Client -> Option<string>): (r: Result<Client, string>)
    ensures r.Ok? <==> client.Ok? && ping(client.value).None?
    ensures r.Ok? ==> r.value == client.value
    ensures client.Err? ==> r == Err("daemon not running.\n\nStart it with: ugudu daemon\n\nError: " + client.error)
    ensures client.Ok? && ping(client.value).Some? ==>
      r == Err("daemon not responding.\n\nStart it with: ugudu daemon\n\nError: " + ping(client.value).value)
  {
    if client.Err? then Err("daemon not running.\n\nStart it with: ugudu daemon\n\nError: " + client.error)
    else match ping(client.value)
      case Some(e) => Err("daemon not responding.\n\nStart it with: ugudu daemon\n\nError: " + e)
      case None => Ok(client.value)
  }

  /**
   * `filepath.Abs` against the working directory `cwd`; with the error
   * ignored as `resolveSpecPath` ignores it, a failed `Getwd` gives "".
   */
  function Abs(cwd: Option<string>, p: string): string {
    if IsAbs(p) then Clean(p)
    else if cwd.None? then ""
    else JoinAll([cwd.value, p])
  }

  /** Whether `resolveSpecPath` takes its argument for a path rather than a spec name. */
  predicate IsSpecPath(name: string) {
    Contains(name, "/") || HasSuffix(name, ".yaml")
  }

  /** `resolveSpecPath`: a path is made absolute; a bare name is the file `<name>.yaml` in the specs directory. */
  function ResolveSpecPath(name: string, cwd: Option<string>, specsDir: string): (p: string)
    ensures IsSpecPath(name) ==> p == Abs(cwd, name)
    ensures !IsSpecPath(name) ==> p == JoinAll([specsDir, name + ".yaml"])
  {
    if IsSpecPath(name) then Abs(cwd, name) else JoinAll([specsDir, name + ".yaml"])
  }

  lemma {:induction false} JoinKeepsHead(parts: seq<string>, sep: string)
    requires |parts| > 0 && |parts[0]| > 0
    ensures |Join(parts, sep)| > 0 && Join(parts, sep)[0] == parts[0][0]
  {
  }

  lemma {:induction false} NonEmptyKeepsHead(parts: seq<string>)
    requires |parts| > 0 && parts[0] != ""
    ensures NonEmpty(parts) == [parts[0]] + NonEmpty(parts[1..])
  {
  }

  /** `filepath.Join` keeps an absolute first element's root. */
  lemma JoinAllRooted(dir: string, name: string)
    requires IsAbs(dir)
    ensures IsAbs(JoinAll([dir, name]))
  {
    NonEmptyKeepsHead([dir, name]);
    var ne := NonEmpty([dir, name]);
    JoinKeepsHead(ne, "/");
    assert IsAbs(Join(ne, "/"));
  }

  /** With an absolute working directory and specs directory, every spec path resolves to an absolute one. */
  lemma ResolvedIsAbsolute(name: string, cwd: string, specsDir: string)
    requires IsAbs(cwd) && IsAbs(specsDir)
    ensures IsAbs(ResolveSpecPath(name, Some(cwd), specsDir))
  {
    if IsSpecPath(name) {
      if !IsAbs(name) {
        JoinAllRooted(cwd, name);
      }
    } else {
      JoinAllRooted(specsDir, name + ".yaml");
    }
  }
}
