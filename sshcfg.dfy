/**
 * internal/sshcfg/sshcfg.go: resolution of a host alias through the user's
 * ssh_config(5) file into the address, user, port and key to connect with.
 *
 * The file system, the home directory and the ssh_config library are
 * abstract: opening the file is an outcome supplied by the caller, and a
 * decoded file is a lookup `Get(alias, key)` returning a value and whether
 * the lookup failed.
 */
module SshCfg {
  import opened Wrappers
  import opened Text

  /** `sshcfg.Target`. */
  datatype Target = Target(host: string, user: string, port: Int64, identityFile: string)

  /** The SSH port used when the file gives none (section 4.1 of RFC 4253). */
  const DefaultPort: Int64 := 22

  /** The two results of `cfg.Get(alias, key)`: the value, and whether an error came with it. */
  datatype Got = Got(value: string, failed: bool)

  /** A decoded ssh_config file, as far as `ResolveHost` asks it anything. */
  type Lookup = (string, string) -> Got

  /** What `ResolveHost` learns from the process and the file system. */
  datatype SshEnv = SshEnv(
    home: Result<string, Error>,                 // os.UserHomeDir
    open: string -> Result<seq<bv8>, Error>,     // os.Open, then the file's bytes
    decode: seq<bv8> -> Result<Lookup, string>)  // ssh_config.Decode

  /** The ssh_config path consulted: the explicit one, else `~/.ssh/config`. */
  function ConfigPathFor(sshConfigPath: string, home: Result<string, Error>): (r: Result<string, Error>)
    ensures sshConfigPath != "" ==> r == Ok(sshConfigPath)
    ensures sshConfigPath == "" && home.Err? ==> r == Err(home.error)
    ensures sshConfigPath == "" && home.Ok? ==> r.Ok? && r.value == SshDirFile(home.value, "config")
  {
    if sshConfigPath != "" then Ok(sshConfigPath)
    else
      match home
      case Err(e) => Err(e)
      case Ok(h) => Ok(SshDirFile(h, "config"))
  }

  /** The target for `alias` once the file has been decoded into `get`. */
  function FromLookup(alias: string, get: Lookup): (t: Target)
    // HostName is used unless the lookup fails or is empty; the alias is the fallback.
    ensures t.host == alias || (t.host == get(alias, "HostName").value && t.host != "")
    ensures get(alias, "HostName").failed || get(alias, "HostName").value == "" ==> t.host == alias
    ensures !get(alias, "HostName").failed && get(alias, "HostName").value != "" ==>
              t.host == get(alias, "HostName").value
    ensures alias != "" ==> t.host != ""
    // Port is 22 unless the value parses; a parsed value is taken without a range check.
    ensures t.port == DefaultPort || Atoi(get(alias, "Port").value) == Some(t.port)
    ensures get(alias, "Port").value != "" && Atoi(get(alias, "Port").value).Some? ==>
              t.port == Atoi(get(alias, "Port").value).value
    // User and IdentityFile are the values returned, whether or not an error came with them.
    ensures t.user == get(alias, "User").value
    ensures t.identityFile == get(alias, "IdentityFile").value
  {
    var hostName := get(alias, "HostName");
    var hostname := if hostName.failed || hostName.value == "" then alias else hostName.value;
    var portStr := get(alias, "Port").value;
    var port: Int64 := if portStr != "" && Atoi(portStr).Some? then Atoi(portStr).value else DefaultPort;
    Target(hostname, get(alias, "User").value, port, get(alias, "IdentityFile").value)
  }

  /**
   * `ResolveHost`: a missing file is not an error and yields the alias on
   * port 22; a home-directory failure, any other open failure and a decode
   * failure are returned.
   */
  function ResolveHost(alias: string, sshConfigPath: string, env: SshEnv): (r: Result<Target, Error>)
    ensures r.Err? <==>
              || ConfigPathFor(sshConfigPath, env.home).Err?
              || (var file := env.open(ConfigPathFor(sshConfigPath, env.home).value);
                  || (file.Err? && file.error != NotExist)
                  || (file.Ok? && env.decode(file.value).Err?))
    ensures ConfigPathFor(sshConfigPath, env.home).Ok? &&
            env.open(ConfigPathFor(sshConfigPath, env.home).value) == Err(NotExist) ==>
              r == Ok(Target(alias, "", DefaultPort, ""))
    // The error returned is the one met first, unchanged; a decoded file gives its lookup's target.
    ensures ConfigPathFor(sshConfigPath, env.home).Err? ==> r == Err(ConfigPathFor(sshConfigPath, env.home).error)
    ensures ConfigPathFor(sshConfigPath, env.home).Ok? ==>
              var file := env.open(ConfigPathFor(sshConfigPath, env.home).value);
              && (file.Err? && file.error != NotExist ==> r == Err(file.error))
              && (file.Ok? && env.decode(file.value).Err? ==> r == Err(Failure(env.decode(file.value).error)))
              && (file.Ok? && env.decode(file.value).Ok? ==> r == Ok(FromLookup(alias, env.decode(file.value).value)))
  {
    match ConfigPathFor(sshConfigPath, env.home)
    case Err(e) => Err(e)
    case Ok(path) =>
      match env.open(path)
      case Err(e) => if e == NotExist then Ok(Target(alias, "", DefaultPort, "")) else Err(e)
      case Ok(bytes) =>
        match env.decode(bytes)
        case Err(message) => Err(Failure(message))
        case Ok(get) => Ok(FromLookup(alias, get))
  }

  /** A decoded file that knows nothing about the alias gives the same target as no file at all. */
  lemma UnknownAliasLikeMissingFile(alias: string, get: Lookup)
    requires forall key :: get(alias, key) == Got("", false)
    ensures FromLookup(alias, get) == Target(alias, "", DefaultPort, "")
  {
    assert get(alias, "Port") == Got("", false);
  }

  /** The Port value "-1" parses, so it is taken as it is: nothing checks the range. */
  lemma NegativePortAccepted(alias: string, get: Lookup)
    requires get(alias, "Port") == Got("-1", false)
    ensures FromLookup(alias, get).port == -1
  {
    AtoiOfNumeral(true, "1");
  }

  /** A Port value that is not a numeral, such as "ssh", leaves the default port. */
  lemma UnparsablePortIgnored(alias: string, get: Lookup)
    requires get(alias, "Port").value == "ssh"
    ensures FromLookup(alias, get).port == DefaultPort
  {
    assert !IsDigit("ssh"[0]);
  }

  /** A port written with `%d` and looked up again resolves to the same port. */
  lemma WrittenPortResolves(alias: string, get: Lookup, port: Int64)
    requires get(alias, "Port").value == Decimal(port)
    ensures FromLookup(alias, get).port == port
  {
    AtoiOfDecimal(port);
  }
}
