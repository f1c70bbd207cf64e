# rcs-go: configuration resolution and command construction, in Dafny

rcs-go runs a command on a remote machine over SSH. Before it connects, it goes through five steps:

- It splits its command line at the first `--` into flags and the remote command (`internal/cli`).
- It finds the nearest `project.toml` or `project.json`, and merges that file into the options the command line left unset (`internal/config`).
- It resolves the host alias through the user's ssh_config file (`internal/sshcfg`).
- It picks the authentication methods to offer: an SSH agent first, then a private key file (`internal/sshx`).
- It renders the exact string executed on the remote side, and later maps the session's error to an exit code (`internal/exec`).

This project models those five steps and proves what each promises.

The project has eight modules, one per Go package plus two shared ones:

- `Wrappers` holds the failure-carrying values: `Option`, `Result`, and the kinds of Go `error` the code inspects.
- `Text` holds the Go library string routines whose edge cases matter: `strings.Join`, `strings.ReplaceAll`, `strconv.Atoi` on 64-bit `int`, `%d`, `filepath.Ext`, and first and last index search.
- `Types` holds the records of `types.go`. The options record is a class, `Types.CliOptions`, because `Load` overwrites its fields in place. `Value()` is a snapshot of those fields as a datatype.
- `Exec`, `ProjectConfig`, `SshCfg`, `Sshx` and `Cli` model the five packages.

Where the Go code mutates state or loops, the model is a method, with loop invariants where the Go code loops. Each such method is proved equal to a specification function, and the promised properties are proved as lemmas about that function:

- `BuildRemoteCommand` collects exports in a loop.
- `findConfigFile` walks up the directory tree in a loop.
- `Load` overwrites fields one by one and appends the config env in a loop.
- `Dial` appends authentication methods.
- `Parse` scans for the separator and calls `stringSlice.Set`.

Everything outside the process becomes a parameter:

- the file system, the working directory and the home directory;
- the environment variable `SSH_AUTH_SOCK`;
- the TOML, JSON and ssh_config decoders, `time.ParseDuration`, and the flag parser;
- the agent socket, key parsing and the known_hosts loader.

A found config file is a sequence of path components below the root. It is rendered to a string for reading and for the extension test. Go's unspecified map iteration order is modelled as any order: `ConfigEnvs` picks each key with `:|`, and the specification of the merge takes the key order as an argument. `IsEnumeration` constrains that argument to list each key of the map exactly once.

## Model

| member | source | states |
|---|---|---|
| Types.CliOptions.constructor | internal/cli/cli.go:26 | a fresh options record holds the zero value of every field |
| Exec.BuildRemoteCommand | internal/exec/exec.go:12-37 | the loop-built string equals `RemoteCommand` of the options: the cd prefix, then one export per env entry, then the payload, verbatim in argv mode and quoted for `bash -lc` in shell mode |
| Exec.EnvPrefixIsExportChain | internal/exec/exec.go:13-20 | joining the exports with " && " plus a trailing " && " is the same as emitting `export <entry> && ` for each entry in input order; an empty env gives the empty prefix |
| Exec.ShellWordIsPayload | internal/exec/exec.go:28-32 | in shell mode the quoted word handed to `bash -lc` has, after POSIX quote removal, exactly the joined command as its value, so no payload can end the quoting early |
| Exec.EscapeLeavesNoBareQuote | internal/exec/exec.go:31 | the escaped payload holds no single quote outside a `'\''` group |
| Exec.EscapeRoundTrip | internal/exec/exec.go:31 | replacing each `'\''` back with `'` recovers the joined command |
| Exec.ArgvExample | internal/exec/exec.go:27-36 | no env, no directory, argv mode: `["echo","hi"]` renders as `echo hi` |
| Exec.ShellQuoteExample | internal/exec/exec.go:28-32 | shell mode: `["echo","it's"]` renders as `bash -lc 'echo it'\''s'` |
| Exec.CompositionExample | internal/exec/exec.go:22-36 | Dir `/tmp`, Env `["A=1"]`, Command `["ls"]` render as `cd /tmp && export A=1 && ls` (the directory change first) |
| Exec.ExitStatusOf | internal/exec/exec.go:40-49 | the code is 0 exactly for no error or an exit status of 0; an exit error gives its status verbatim; any other error, wrapped ones included, gives 1 |
| ProjectConfig.FindConfigFile | internal/config/config.go:105-127 | the loop's outcome equals the upward search: a working-directory error is returned, otherwise the first config file found walking up, otherwise not-exist |
| ProjectConfig.SearchFindsNearest | internal/config/config.go:111-124 | a found file sits in the working directory or an ancestor, exists, is `project.toml` or `project.json` (json only when no toml stands beside it), and no nearer directory holds either; when none is found, no directory up to the root holds one |
| ProjectConfig.SearchFindsNone | internal/config/config.go:119-126 | when no directory on the way to the root holds a config file, the search ends at the root with nothing |
| ProjectConfig.NoConfigAnywhere | internal/config/config.go:81-88 | without an explicit path and with no config file up to the root, the outcome is not-exist |
| ProjectConfig.FindAndParseConfig | internal/config/config.go:77-103 | the explicit path is used verbatim, else the searched one; read errors are returned as they are; the file is decoded as TOML when its extension is `.toml`, else as JSON |
| ProjectConfig.ConfigNameSelectsDecoder | internal/config/config.go:96-100 | a searched file is decoded as TOML exactly when it is `project.toml` |
| ProjectConfig.ExplicitMissingFileIsNotExist | internal/config/config.go:81-92 | an explicit path naming no file gives not-exist, which `Load` ignores |
| ProjectConfig.DecodeFailureIsFailure | internal/config/config.go:95-102 | a file that reads but does not decode gives a failure with the decoder's message, never not-exist |
| ProjectConfig.ConfigEnvs | internal/config/config.go:66-70 | one `k=v` string per map entry, each key exactly once, in some iteration order |
| ProjectConfig.PrependConfigEnv | internal/config/config.go:66-72 | the new env has the map's size plus the CLI env's length; it ends with the CLI env unchanged; every config entry appears as `k=v` before it, and every entry before it is some config key's `k=v` |
| ProjectConfig.Merged | internal/config/config.go:25-72 | each string field is taken from the file exactly when the CLI left it empty; each bool becomes CLI-or-file; the timeout changes only from 0, and only to a parsed non-empty file value; config env entries come first, none dropped and none foreign; command and config path are untouched |
| ProjectConfig.MergeEmptyConfig | internal/config/config.go:25-72 | merging a document whose every field is zero leaves the options as they were |
| ProjectConfig.MergeTwice | internal/config/config.go:25-63 | merging the same document again changes no field other than the env |
| ProjectConfig.EnvConcatenationExample | internal/config/config.go:66-72 | config `env = {A = "1"}` with `--env B=2` gives exactly `["A=1", "B=2"]` |
| ProjectConfig.Load | internal/config/config.go:15-75 | not-exist returns the same options, unchanged, with no error; any other error returns no options, the error, and no field changed; a decoded file leaves the options equal to `Merged` for some iteration order of its env |
| ProjectConfig.MergeScalarsInPlace | internal/config/config.go:25-63 | the in-place field copies leave the options equal to the merge of their old value, env untouched |
| ProjectConfig.MergeHostAndModeIn | internal/config/config.go:26-40 | host, directory, shell, stdin and pty are updated in place as the merge says |
| ProjectConfig.MergeLogIn | internal/config/config.go:41-52 | the log path and the three log switches are updated in place as the merge says |
| ProjectConfig.MergeCredentialsAndTimeoutIn | internal/config/config.go:53-63 | identity, ssh_config path and timeout are updated in place as the merge says |
| SshCfg.ConfigPathFor | internal/sshcfg/sshcfg.go:21-27 | an explicit path is kept; otherwise `<home>/.ssh/config`, or the home-directory error |
| SshCfg.FromLookup | internal/sshcfg/sshcfg.go:44-66 | the host is HostName unless that lookup fails or is empty, and the alias whenever it fails or is empty, whatever value came with the failure (never empty for a non-empty alias); the port is 22 unless the Port value parses, a parsed value being used with no range check; user and identity file are the returned values, errors ignored |
| SshCfg.ResolveHost | internal/sshcfg/sshcfg.go:20-67 | it fails exactly on a home-directory error, an open error other than not-exist, or a decode error, and returns that error unchanged (a decode message as a failure); a missing file gives the alias on port 22 with empty user and key; a decoded file gives `FromLookup` of its lookup |
| SshCfg.UnknownAliasLikeMissingFile | internal/sshcfg/sshcfg.go:29-66 | a file with nothing for the alias resolves like a missing file |
| SshCfg.NegativePortAccepted | internal/sshcfg/sshcfg.go:51-57 | `Port -1` parses and is used: there is no range check |
| SshCfg.UnparsablePortIgnored | internal/sshcfg/sshcfg.go:51-57 | a Port value that does not parse leaves port 22 |
| SshCfg.WrittenPortResolves | internal/sshcfg/sshcfg.go:51-57 | a port written in decimal resolves to that port |
| Text.SshDirFile | internal/sshcfg/sshcfg.go:26 | the default path begins with the home directory and ends with `.ssh/<name>` |
| Sshx.KeyPath | internal/sshx/sshx.go:30-33 | the key path is the override when non-empty, else the target's IdentityFile |
| Sshx.AuthCandidates | internal/sshx/sshx.go:18-42 | at most two methods; an agent method is present exactly when SSH_AUTH_SOCK is set and the connect succeeds, and it is first; a key method is present exactly when the key path is non-empty and read and parse succeed, and it carries the bytes read; one method per successful probe, so the list is empty exactly when both probes fail |
| Sshx.CollectAuthMethods | internal/sshx/sshx.go:18-42 | the appends produce exactly `AuthCandidates` |
| Sshx.Dial | internal/sshx/sshx.go:17-65 | the outcome equals `DialPlan`: no method gives the no-authentication error first, then home-directory and known_hosts errors, else a tcp request to the `%s:%d` address with the target's user, the methods, `~/.ssh/known_hosts` and the timeout |
| Sshx.NoAuthMethodFirst | internal/sshx/sshx.go:44-46 | the no-authentication error occurs exactly when both probes fail, whatever the home directory |
| Sshx.DialRequestFields | internal/sshx/sshx.go:57-65 | a request carries "tcp", the target's user, the timeout unchanged, one or two methods, the known_hosts path, and, for a host without ':' or brackets, an address from which the dialer reads back the target's host and port |
| Sshx.DialRequestRejectsIPv6 | internal/sshx/sshx.go:64 | every request made for an unbracketed host holding ':' carries an address that `net.SplitHostPort` rejects |
| Sshx.Address | internal/sshx/sshx.go:64 | the `%s:%d` address starts with the host verbatim, its last ':' is the one written after the host, and what follows parses back to the port |
| Sshx.AddressRoundTrip | internal/sshx/sshx.go:64 | for a host without ':' or brackets the `%s:%d` address splits back into the host and a port string that parses to the port |
| Sshx.AddressBreaksIPv6 | internal/sshx/sshx.go:64 | the `%s:%d` address of every unbracketed host holding ':' (an IPv6 literal) is rejected by `net.SplitHostPort` |
| Sshx.LoopbackAddressRejected | internal/sshx/sshx.go:64 | host `::1` on port 22 gives `::1:22`, which does not split |
| Sshx.BracketedHostAddress | internal/sshx/sshx.go:64 | a HostName already written in brackets, such as `[::1]`, gives an address that splits back into the bare literal and the port |
| Sshx.HostPortRoundTrip | internal/sshx/sshx.go:64 | the bracketing address splits back into host and port for every bracket-free host, IPv6 literals included |
| Cli.StoreFlagValues | internal/cli/cli.go:32-47 | the flag definitions write every options field except env and command, which keep their value |
| Cli.StringSlice.Set | internal/cli/cli.go:18-21 | appends the value at the end and reports no error |
| Cli.EnvOrderExample | internal/cli/cli.go:18-21 | repeated `-env A=1 -env B=2 -env A=3` is kept in that order, duplicates included |
| Cli.FlagTokens | internal/cli/cli.go:49-62 | the flag tokens are a prefix of the arguments with no separator, stopping exactly at the first one |
| Cli.CommandArgs | internal/cli/cli.go:59-76 | with a separator, the arguments are the flag tokens, the separator, then the command; without one, the command is the flag parser's leftovers |
| Cli.ParseArgs | internal/cli/cli.go:25-91 | a flag error is returned as such; help is returned exactly when the flags parse with `-help`; success means flags parsed without help, and a non-empty command, the collected env values and the flag-written fields |
| Cli.Parse | internal/cli/cli.go:25-91 | the scan, flag parse and checks return what `ParseArgs` says: a fresh record on success, `(nil, true, nil)` for help, `(nil, false, err)` otherwise |
| Cli.CommandAfterFirstSeparator | internal/cli/cli.go:49-68 | only the tokens before the first `--` are parsed as flags; the command is everything after it, verbatim, later `--` included, and tokens left before it are dropped |
| Cli.NoSeparatorCommandIsRest | internal/cli/cli.go:69-76 | without `--` every token goes to the flag parser and the command is its leftover arguments |
| Cli.TrailingSeparatorNeedsCommand | internal/cli/cli.go:66-85 | a trailing `--` with nothing after it gives "error: command is required" |
| Cli.OutcomePrecedence | internal/cli/cli.go:59-85 | a flag error comes before help, and help comes before the missing-command error |

Behaviour of the code that is easy to misread, each stated by the members above:

- `BuildRemoteCommand` emits the `cd` prefix before the exports: `cd /tmp && export A=1 && ls` (`Exec.CompositionExample`).
- The config env entries come in Go's map iteration order, which can differ between runs (`ProjectConfig.ConfigEnvs`, `ProjectConfig.Load`).
- The missing-command error reads exactly "error: command is required" (`Cli.TrailingSeparatorNeedsCommand`).
- A flag-parse error is returned before `-help` is looked at (`Cli.OutcomePrecedence`).

## Left out

- `internal/iox/iox.go` `Stream` is not part of this model: it only copies I/O.
- `os.Getwd`, `os.Stat`, `os.ReadFile`, `os.Open`, `os.UserHomeDir` and `os.Getenv` are parameters. So are the TOML, JSON and ssh_config decoders, `time.ParseDuration`, the agent connect, `ssh.ParsePrivateKey` and `knownhosts.New`. Only their outcomes are modelled.
- Host-pattern matching in ssh_config (first match wins) is not modelled. A decoded file is an arbitrary lookup `Get(alias, key)` that returns a value and an error flag.
- The Go `flag` package's per-flag parsing is an arbitrary function. It returns the fields its definitions write, the `-env` values in order, the help switch and the leftover arguments, or an error.
- `fs.Usage()` printing the help text and `stringSlice.String` are not modelled; both only produce display text.
- `ssh.Dial` itself is not modelled, because it is network and protocol. So are the SSH handshake, host-key checking and the agent protocol. `Sshx.Dial` ends with the request it would make.
- `filepath.Join` and `filepath.Clean` are not modelled in general. The working directory is a clean absolute path given as components. The home directory is assumed clean: `Text.SshDirFile` handles an empty home and a trailing '/', and no other normalisation.
- Exec.ExitStatusOf: models a session error as a small datatype: an exit status, a wrapped error, or any other error. It does not model Go's dynamic type assertion.
- ProjectConfig.Load: states the resulting env only up to the iteration order of the config's env map. Go leaves that order unspecified, and the contract says "for some order that lists each key once".
- Integers: durations and `int` are 64-bit (`Text.Int64`), and `strconv.Atoi` rejects out-of-range numerals. No arithmetic in the core can overflow.

## Findings

| source | as written | input that shows it | evidently intended | confidence | as-written member | corrected member |
|---|---|---|---|---|---|---|
| internal/sshx/sshx.go:64 | the address is `fmt.Sprintf("%s:%d", host, port)`, so an IPv6 host is not bracketed | HostName `::1`, port 22 gives `::1:22`; `net.SplitHostPort` rejects it as having too many colons | a bare IPv6 literal put in brackets, as `net.JoinHostPort` does, giving `[::1]:22` | medium; not executed | Sshx.AddressBreaksIPv6 | Sshx.HostPortRoundTrip |
