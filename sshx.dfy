/**
 * internal/sshx/sshx.go: the preparation of an SSH connection in `Dial`:
 * the list of authentication methods, built from two best-effort probes
 * (an SSH agent first, a private key file second), the check that the list is
 * not empty, and the client configuration and address handed to `ssh.Dial`.
 *
 * The probes are abstract: the value of SSH_AUTH_SOCK, whether the agent
 * socket accepts a connection, the outcome of reading the key file, whether
 * the key parses, the home directory and whether the known_hosts file loads.
 */
module Sshx {
  import opened Wrappers
  import opened Text
  import opened SshCfg

  /** One entry of `authMethods`. */
  datatype AuthMethod =
    | AgentSigners(socket: string)                // ssh.PublicKeysCallback(agentClient.Signers)
    | PrivateKey(keyPath: string, key: seq<bv8>)  // ssh.PublicKeys(signer)

  /** What `Dial` learns from the process, the file system and the agent. */
  datatype Probes = Probes(
    authSock: string,                             // os.Getenv("SSH_AUTH_SOCK"), "" when unset
    agentDial: string -> bool,                    // net.Dial("unix", sock) succeeds
    readFile: string -> Result<seq<bv8>, Error>,  // os.ReadFile
    parseKey: seq<bv8> -> bool,                   // ssh.ParsePrivateKey succeeds
    home: Result<string, Error>,                  // os.UserHomeDir
    knownHosts: string -> Option<string>)         // knownhosts.New: the error message, if any

  /** The key file consulted: the `identityFile` argument, else the target's IdentityFile. */
  function KeyPath(identityFile: string, target: Target): (path: string)
    ensures identityFile != "" ==> path == identityFile
    ensures identityFile == "" ==> path == target.identityFile
  {
    if identityFile != "" then identityFile else target.identityFile
  }

  /** The agent probe succeeds: the socket variable is set and a connection to it is made. */
  predicate AgentAvailable(p: Probes) {
    p.authSock != "" && p.agentDial(p.authSock)
  }

  /** The key probe succeeds: there is a key path, the file is read and its contents parse. */
  predicate KeyAvailable(path: string, p: Probes) {
    path != "" && p.readFile(path).Ok? && p.parseKey(p.readFile(path).value)
  }

  /** The methods the two probes contribute, agent first; a failed probe contributes nothing. */
  function AuthCandidates(target: Target, identityFile: string, p: Probes): (methods: seq<AuthMethod>)
    ensures |methods| <= 2
    ensures (exists i :: 0 <= i < |methods| && methods[i].AgentSigners?) <==> AgentAvailable(p)
    ensures (exists i :: 0 <= i < |methods| && methods[i].PrivateKey?)
            <==> KeyAvailable(KeyPath(identityFile, target), p)
    ensures forall i :: 0 <= i < |methods| && methods[i].AgentSigners? ==> i == 0
    ensures forall i :: 0 <= i < |methods| && methods[i].PrivateKey? ==>
              methods[i].keyPath == KeyPath(identityFile, target)
    ensures |methods| == 0 <==> !AgentAvailable(p) && !KeyAvailable(KeyPath(identityFile, target), p)
    // One method per successful probe; the key method carries the bytes read from the key file.
    ensures |methods| == (if AgentAvailable(p) then 1 else 0) + (if KeyAvailable(KeyPath(identityFile, target), p) then 1 else 0)
    ensures forall i :: 0 <= i < |methods| && methods[i].PrivateKey? ==>
              methods[i].key == p.readFile(KeyPath(identityFile, target)).value
  {
    var path := KeyPath(identityFile, target);
    var agent := if AgentAvailable(p) then [AgentSigners(p.authSock)] else [];
    var key := if KeyAvailable(path, p) then [PrivateKey(path, p.readFile(path).value)] else [];
    assert |agent| == 1 ==> (agent + key)[0] == agent[0];
    assert |key| == 1 ==> (agent + key)[|agent|] == key[0];
    agent + key
  }

  /** Lines 18-42 of `Dial`: the list grows by one append per successful probe. */
  method CollectAuthMethods(target: Target, identityFile: string, p: Probes) returns (methods: seq<AuthMethod>)
    ensures methods == AuthCandidates(target, identityFile, p)
  {
    methods := [];

    if p.authSock != "" {
      var sock := p.authSock;
      if p.agentDial(sock) {
        methods := methods + [AgentSigners(sock)];
      }
    }

    var keyPath := identityFile;
    if keyPath == "" {
      keyPath := target.identityFile;
    }
    if keyPath != "" {
      var key := p.readFile(keyPath);
      if key.Ok? {
        if p.parseKey(key.value) {
          methods := methods + [PrivateKey(keyPath, key.value)];
        }
      }
    }
  }

  // ---------------------------------------------------------------------
  // The address

  /**
   * Line 64 as written: `fmt.Sprintf("%s:%d", host, port)`. The host is copied
   * verbatim, and the ':' written after it is the last one in the address, so
   * the dialer cuts the port off there whatever the host holds.
   */
  function Address(host: string, port: Int64): (a: string)
    ensures |a| > |host| + 1 && a[..|host|] == host
    ensures LastIndexOf(a, ':') == |host|
    ensures Atoi(a[|host| + 1..]) == Some(port)
  {
    var a := host + ":" + Decimal(port);
    DecimalAlphabet(port);
    AtoiOfDecimal(port);
    assert a[|host| + 1..] == Decimal(port);
    LastIndexOfAt(a, ':', |host|);
    a
  }

  /**
   * How `ssh.Dial("tcp", addr, …)` reads the address: `net.SplitHostPort`,
   * giving the host and the port, or `None` for a malformed address. A host
   * holding ':' (an IPv6 literal) must be written in brackets.
   */
  function SplitHostPort(a: string): Option<(string, string)> {
    var i := LastIndexOf(a, ':');
    if i < 0 then None
    else if a[0] == '[' then
      var end := IndexOf(a, ']');
      if end < 0 || end + 1 != i then None
      else if '[' in a[1..] || ']' in a[end + 1..] then None
      else Some((a[1..end], a[i + 1..]))
    else if ':' in a[..i] || '[' in a || ']' in a then None
    else Some((a[..i], a[i + 1..]))
  }

  /** `net.JoinHostPort(host, strconv.Itoa(port))`: an IPv6 literal is put in brackets. */
  function HostPort(host: string, port: Int64): string {
    if ':' in host then "[" + host + "]:" + Decimal(port) else host + ":" + Decimal(port)
  }

  /** A host and a port, neither holding ':' or a bracket, split back into the two. */
  lemma PlainSplit(host: string, port: string)
    requires ':' !in host && '[' !in host && ']' !in host
    requires ':' !in port && '[' !in port && ']' !in port
    ensures SplitHostPort(host + ":" + port) == Some((host, port))
  {
    var a := host + ":" + port;
    assert a[|host| + 1..] == port;
    LastIndexOfAt(a, ':', |host|);
    assert a[..|host|] == host;
  }

  /** A host without ':' reads back from the as-written address, and so does the port. */
  lemma AddressRoundTrip(host: string, port: Int64)
    requires ':' !in host && '[' !in host && ']' !in host
    ensures SplitHostPort(Address(host, port)) == Some((host, Decimal(port)))
    ensures Atoi(SplitHostPort(Address(host, port)).value.1) == Some(port)
  {
    DecimalAlphabet(port);
    AtoiOfDecimal(port);
    PlainSplit(host, Decimal(port));
  }

  /** A host holding ':' outside brackets, followed by ':' and a port without ':', is rejected. */
  lemma ColonHostSplitFails(host: string, port: string)
    requires ':' in host && host[0] != '['
    requires ':' !in port
    ensures SplitHostPort(host + ":" + port) == None
  {
    var a := host + ":" + port;
    assert a[|host| + 1..] == port;
    LastIndexOfAt(a, ':', |host|);
    assert a[..|host|] == host;
  }

  /** The as-written address of any unbracketed IPv6 host, such as `::1`, is rejected by the dialer. */
  lemma AddressBreaksIPv6(host: string, port: Int64)
    requires ':' in host && host[0] != '['
    ensures SplitHostPort(Address(host, port)) == None
  {
    DecimalAlphabet(port);
    ColonHostSplitFails(host, Decimal(port));
  }

  /** The loopback instance: `::1` on port 22 becomes `::1:22`, which does not split. */
  lemma LoopbackAddressRejected()
    ensures SplitHostPort(Address("::1", 22)) == None
  {
    AddressBreaksIPv6("::1", 22);
  }

  /** A bracketed host followed by a port that holds no ':' and no bracket splits back into the two. */
  lemma BracketedSplit(host: string, port: string)
    requires '[' !in host && ']' !in host
    requires |port| >= 1 && ':' !in port && '[' !in port && ']' !in port
    ensures SplitHostPort("[" + host + "]:" + port) == Some((host, port))
  {
    var a := "[" + host + "]:" + port;
    var i := |host| + 2;
    assert a[i + 1..] == port;
    LastIndexOfAt(a, ':', i);
    assert a[..i - 1] == "[" + host;
    IndexOfAt(a, ']', i - 1);
    assert a[1..] == host + "]:" + port;
    assert a[i - 1..] == "]:" + port;
    assert a[1..i - 1] == host;
  }

  /** Every host without brackets, IPv6 literals included, reads back from `HostPort`, and so does the port. */
  lemma HostPortRoundTrip(host: string, port: Int64)
    requires '[' !in host && ']' !in host
    ensures SplitHostPort(HostPort(host, port)) == Some((host, Decimal(port)))
    ensures Atoi(SplitHostPort(HostPort(host, port)).value.1) == Some(port)
  {
    if ':' in host {
      DecimalAlphabet(port);
      AtoiOfDecimal(port);
      BracketedSplit(host, Decimal(port));
    } else {
      AddressRoundTrip(host, port);
    }
  }

  // ---------------------------------------------------------------------
  // Dial

  /** `ssh.ClientConfig` as `Dial` fills it. */
  datatype ClientConfig = ClientConfig(user: string, auth: seq<AuthMethod>, knownHostsPath: string, timeout: Int64)

  /** The call `ssh.Dial(network, address, config)` that `Dial` ends with. */
  datatype DialRequest = DialRequest(network: string, address: string, config: ClientConfig)

  /** The errors `Dial` returns before it reaches `ssh.Dial`. */
  datatype DialError =
    | NoAuthMethod               // "no authentication method available (agent or identity file)"
    | HomeDirError(cause: Error) // "could not get user home directory: %w"
    | HostKeyError(message: string) // "could not create host key callback: %w"

  /** The outcome of `Dial` up to the network: the request it makes, or the error it returns first. */
  function DialPlan(target: Target, identityFile: string, timeout: Int64, p: Probes): Result<DialRequest, DialError> {
    var methods := AuthCandidates(target, identityFile, p);
    if |methods| == 0 then Err(NoAuthMethod)
    else
      match p.home
      case Err(e) => Err(HomeDirError(e))
      case Ok(home) =>
        var knownHostsPath := SshDirFile(home, "known_hosts");
        match p.knownHosts(knownHostsPath)
        case Some(message) => Err(HostKeyError(message))
        case None =>
          Ok(DialRequest("tcp", Address(target.host, target.port),
                         ClientConfig(target.user, methods, knownHostsPath, timeout)))
  }

  /** `Dial`, up to the call of `ssh.Dial`. */
  method Dial(target: Target, identityFile: string, timeout: Int64, p: Probes) returns (r: Result<DialRequest, DialError>)
    ensures r == DialPlan(target, identityFile, timeout, p)
  {
    var authMethods := CollectAuthMethods(target, identityFile, p);
    if |authMethods| == 0 {
      return Err(NoAuthMethod);
    }
    if p.home.Err? {
      return Err(HomeDirError(p.home.error));
    }
    var knownHostsPath := SshDirFile(p.home.value, "known_hosts");
    var hostKeyErr := p.knownHosts(knownHostsPath);
    if hostKeyErr.Some? {
      return Err(HostKeyError(hostKeyErr.value));
    }
    var config := ClientConfig(target.user, authMethods, knownHostsPath, timeout);
    var addr := Address(target.host, target.port);
    return Ok(DialRequest("tcp", addr, config));
  }

  /**
   * `Dial` fails for want of a method exactly when both probes fail, and then
   * before it looks at the home directory or the known_hosts file.
   */
  lemma NoAuthMethodFirst(target: Target, identityFile: string, timeout: Int64, p: Probes)
    ensures DialPlan(target, identityFile, timeout, p) == Err(NoAuthMethod)
            <==> !AgentAvailable(p) && !KeyAvailable(KeyPath(identityFile, target), p)
    ensures forall home :: DialPlan(target, identityFile, timeout, p.(home := home)) == Err(NoAuthMethod)
              <==> DialPlan(target, identityFile, timeout, p) == Err(NoAuthMethod)
  {
  }

  /**
   * A request that is made carries the target's user, the timeout unchanged,
   * at least one method and `~/.ssh/known_hosts`; for a host without ':' or
   * brackets its address reads back as the target's host and port.
   */
  lemma DialRequestFields(target: Target, identityFile: string, timeout: Int64, p: Probes)
    requires DialPlan(target, identityFile, timeout, p).Ok?
    requires ':' !in target.host && '[' !in target.host && ']' !in target.host
    ensures var req := DialPlan(target, identityFile, timeout, p).value;
            && req.network == "tcp"
            && req.config.user == target.user
            && req.config.timeout == timeout
            && 1 <= |req.config.auth| <= 2
            && p.home.Ok? && req.config.knownHostsPath == SshDirFile(p.home.value, "known_hosts")
            && SplitHostPort(req.address).Some?
            && SplitHostPort(req.address).value.0 == target.host
            && Atoi(SplitHostPort(req.address).value.1) == Some(target.port)
  {
    AddressRoundTrip(target.host, target.port);
  }

  /** Every request `Dial` makes for an unbracketed IPv6 host carries an address the dialer rejects. */
  lemma DialRequestRejectsIPv6(target: Target, identityFile: string, timeout: Int64, p: Probes)
    requires DialPlan(target, identityFile, timeout, p).Ok?
    requires ':' in target.host && target.host[0] != '['
    ensures SplitHostPort(DialPlan(target, identityFile, timeout, p).value.address) == None
  {
    AddressBreaksIPv6(target.host, target.port);
  }

  /** A HostName written in brackets, such as `[::1]`, gives an address that splits back into the bare literal. */
  lemma BracketedHostAddress(literal: string, port: Int64)
    requires '[' !in literal && ']' !in literal
    ensures SplitHostPort(Address("[" + literal + "]", port)) == Some((literal, Decimal(port)))
  {
    DecimalAlphabet(port);
    assert Address("[" + literal + "]", port) == "[" + literal + "]:" + Decimal(port);
    BracketedSplit(literal, Decimal(port));
  }
}
