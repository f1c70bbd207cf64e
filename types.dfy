/**
 * The records of internal/types/types.go: the command-line options, which the
 * parser fills and the config merger overwrites in place, and the project
 * configuration document with its four sections.
 */
module Types {
  import opened Text

  /** The `[ssh]` section of project.toml / project.json. */
  datatype SshSection = SshSection(host: string, identity: string, sshConfig: string)

  /** The `[exec]` section; `timeout` is a duration string such as "30s". */
  datatype ExecSection = ExecSection(dir: string, pty: bool, shell: bool, stdin: bool, timeout: string)

  /** The `[log]` section. */
  datatype LogSection = LogSection(path: string, append: bool, timestamps: bool, split: bool)

  /** A decoded project configuration document; `env` is its free-form `[env]` table. */
  datatype Config = Config(ssh: SshSection, exec: ExecSection, log: LogSection, env: map<string, string>)

  /** The document in which every field holds its zero value. */
  const EmptyConfig: Config :=
    Config(SshSection("", "", ""), ExecSection("", false, false, false, ""),
           LogSection("", false, false, false), map[])

  /**
   * The value held by a `CliOptions` object at one moment. `timeout` is a
   * `time.Duration`, a count of nanoseconds in a 64-bit integer.
   */
  datatype Options = Options(
    host: string, dir: string, shell: bool, stdin: bool, pty: bool,
    logPath: string, append: bool, timestamps: bool, split: bool,
    identity: string, sshConfigPath: string, configPath: string,
    timeout: Int64, env: seq<string>, command: seq<string>)

  /** The value of `&types.CLIOptions{}`. */
  const ZeroOptions: Options :=
    Options("", "", false, false, false, "", false, false, false, "", "", "", 0, [], [])

  /** `types.CLIOptions`: one mutable options record, shared by pointer. */
  class CliOptions {
    var host: string
    var dir: string
    var shell: bool
    var stdin: bool
    var pty: bool
    var logPath: string
    var append: bool
    var timestamps: bool
    var split: bool
    var identity: string
    var sshConfigPath: string
    var configPath: string
    var timeout: Int64
    var env: seq<string>
    var command: seq<string>

    /** The record's current field values. */
    function Value(): Options
      reads this
    {
      Options(host, dir, shell, stdin, pty, logPath, append, timestamps, split,
              identity, sshConfigPath, configPath, timeout, env, command)
    }

    constructor ()
      ensures Value() == ZeroOptions
    {
      host, dir, shell, stdin, pty := "", "", false, false, false;
      logPath, append, timestamps, split := "", false, false, false;
      identity, sshConfigPath, configPath := "", "", "";
      timeout, env, command := 0, [], [];
    }
  }
}
