/**
 * internal/config/config.go: discovery of the project configuration file and
 * its merge into the command-line options.
 *
 * The filesystem is abstract: a path is the sequence of its components below
 * the root (the root itself is []), `os.Stat` is the predicate `stat`, and
 * reading and decoding a file are outcomes supplied by the caller.
 */
module ProjectConfig {
  import opened Wrappers
  import opened Text
  import opened Types

  type Path = seq<string>

  const TomlName: string := "project.toml"
  const JsonName: string := "project.json"

  /** What the merge sees of the process and the filesystem. */
  datatype FileSystem = FileSystem(
    getwd: Result<Path, Error>,                    // os.Getwd
    stat: Path -> bool,                            // os.Stat succeeds
    readFile: string -> Result<seq<bv8>, Error>,   // os.ReadFile
    decodeToml: seq<bv8> -> Result<Config, string>, // toml.Unmarshal
    decodeJson: seq<bv8> -> Result<Config, string>) // json.Unmarshal

  /** `filepath.Dir` on a directory: the root is its own parent. */
  function Parent(dir: Path): Path {
    if |dir| == 0 then dir else dir[..|dir| - 1]
  }

  /** `filepath.Join(dir, name)` written out as an absolute path string. */
  function Render(p: Path): string
    decreases |p|
  {
    if |p| == 0 then "/"
    else if |p| == 1 then "/" + p[0]
    else Render(p[..|p| - 1]) + "/" + p[|p| - 1]
  }

  predicate NoConfigAt(dir: Path, stat: Path -> bool) {
    !stat(dir + [TomlName]) && !stat(dir + [JsonName])
  }

  /** The walk of `findConfigFile` from `dir` upwards: the first config file met. */
  function Search(dir: Path, stat: Path -> bool): Option<Path>
    decreases |dir|
  {
    if stat(dir + [TomlName]) then Some(dir + [TomlName])
    else if stat(dir + [JsonName]) then Some(dir + [JsonName])
    else if Parent(dir) == dir then None
    else Search(Parent(dir), stat)
  }

  /**
   * The search finds the config file of the nearest directory: the directory
   * holding it is `cwd` or an ancestor, no directory between `cwd` and it holds
   * either file, and a `project.json` is chosen only where no `project.toml`
   * stands beside it. When it finds nothing, no directory on the way holds one.
   */
  lemma {:induction false} SearchFindsNearest(cwd: Path, stat: Path -> bool)
    ensures Search(cwd, stat).Some? ==>
      var p := Search(cwd, stat).value;
      && |p| >= 1 && p[..|p| - 1] <= cwd
      && (p[|p| - 1] == TomlName || p[|p| - 1] == JsonName)
      && stat(p)
      && (p[|p| - 1] == JsonName ==> !stat(p[..|p| - 1] + [TomlName]))
      && forall m :: |p| - 1 < m <= |cwd| ==> NoConfigAt(cwd[..m], stat)
    ensures Search(cwd, stat).None? ==>
      forall m :: 0 <= m <= |cwd| ==> NoConfigAt(cwd[..m], stat)
    decreases |cwd|
  {
    assert cwd[..|cwd|] == cwd;
    if stat(cwd + [TomlName]) {
      assert (cwd + [TomlName])[..|cwd|] == cwd;
    } else if stat(cwd + [JsonName]) {
      assert (cwd + [JsonName])[..|cwd|] == cwd;
    } else if |cwd| > 0 {
      var up := Parent(cwd);
      SearchFindsNearest(up, stat);
      forall m | 0 <= m <= |up| ensures up[..m] == cwd[..m] { }
    }
  }

  /** The outcome of `findConfigFile` for the working directory `getwd`. */
  function FindConfigFileSpec(getwd: Result<Path, Error>, stat: Path -> bool): Result<Path, Error> {
    match getwd
    case Err(e) => Err(e)
    case Ok(cwd) =>
      match Search(cwd, stat)
      case Some(p) => Ok(p)
      case None => Err(NotExist)
  }

  /** `findConfigFile`: the walk up the ancestors of the working directory, as a loop. */
  method FindConfigFile(getwd: Result<Path, Error>, stat: Path -> bool) returns (r: Result<Path, Error>)
    ensures r == FindConfigFileSpec(getwd, stat)
  {
    if getwd.Err? {
      return Err(getwd.error);
    }
    var dir := getwd.value;
    while true
      invariant Search(dir, stat) == Search(getwd.value, stat)
      decreases |dir|
    {
      var names := [TomlName, JsonName];
      for i := 0 to |names|
        invariant forall j :: 0 <= j < i ==> !stat(dir + [names[j]])
      {
        var path := dir + [names[i]];
        if stat(path) {
          assert i == 1 ==> !stat(dir + [names[0]]);
          assert Search(dir, stat) == Some(path);
          return Ok(path);
        }
      }
      assert names[0] == TomlName && names[1] == JsonName;
      assert NoConfigAt(dir, stat);
      var parent := Parent(dir);
      if parent == dir {
        break;
      }
      dir := parent;
    }
    return Err(NotExist);
  }

  /** The path `findAndParseConfig` reads: the explicit one verbatim, else the searched one. */
  function ChosenPath(configPath: string, fs: FileSystem): Result<string, Error> {
    if configPath != "" then Ok(configPath)
    else
      match FindConfigFileSpec(fs.getwd, fs.stat)
      case Err(e) => Err(e)
      case Ok(p) => Ok(Render(p))
  }

  /** Reading `path` and decoding it as TOML when its extension is ".toml", as JSON otherwise. */
  function DecodeFile(path: string, fs: FileSystem): Result<Config, Error> {
    match fs.readFile(path)
    case Err(e) => Err(e)
    case Ok(bytes) =>
      var decoded := if Ext(path) == ".toml" then fs.decodeToml(bytes) else fs.decodeJson(bytes);
      match decoded
      case Err(message) => Err(Failure(message))
      case Ok(cfg) => Ok(cfg)
  }

  /** The outcome of `findAndParseConfig`. */
  function FindAndParse(configPath: string, fs: FileSystem): Result<Config, Error> {
    match ChosenPath(configPath, fs)
    case Err(e) => Err(e)
    case Ok(path) => DecodeFile(path, fs)
  }

  /** `findAndParseConfig`. */
  method FindAndParseConfig(configPath: string, fs: FileSystem) returns (r: Result<Config, Error>)
    ensures r == FindAndParse(configPath, fs)
  {
    var path: string;
    if configPath != "" {
      path := configPath;
    } else {
      var found := FindConfigFile(fs.getwd, fs.stat);
      if found.Err? {
        return Err(found.error);
      }
      path := Render(found.value);
    }
    var file := fs.readFile(path);
    if file.Err? {
      return Err(file.error);
    }
    var decoded: Result<Config, string>;
    if Ext(path) == ".toml" {
      decoded := fs.decodeToml(file.value);
    } else {
      decoded := fs.decodeJson(file.value);
    }
    if decoded.Err? {
      return Err(Failure(decoded.error));
    }
    return Ok(decoded.value);
  }

  lemma RenderChild(dir: Path, name: string)
    requires |dir| > 0
    ensures Render(dir + [name]) == Render(dir) + "/" + name
  {
    var p := dir + [name];
    assert p[..|p| - 1] == dir;
  }

  /** A searched file is decoded as TOML exactly when it is `project.toml`. */
  lemma ConfigNameSelectsDecoder(dir: Path, name: string)
    requires name == TomlName || name == JsonName
    ensures (Ext(Render(dir + [name])) == ".toml") <==> (name == TomlName)
  {
    var stem: string;
    if |dir| == 0 {
      assert dir + [name] == [name];
      stem := "/project";
    } else {
      RenderChild(dir, name);
      stem := Render(dir) + "/project";
    }
    var word := if name == TomlName then "toml" else "json";
    assert name == "project" + "." + word;
    assert Render(dir + [name]) == stem + "." + word;
    ExtOfSuffix(stem, word);
    assert word == "json" ==> ("." + word)[1] != ".toml"[1];
  }

  /** When no directory from `dir` up to the root holds a config file, the search finds none. */
  lemma {:induction false} SearchFindsNone(dir: Path, stat: Path -> bool)
    requires forall m :: 0 <= m <= |dir| ==> NoConfigAt(dir[..m], stat)
    ensures Search(dir, stat) == None
    decreases |dir|
  {
    assert dir[..|dir|] == dir;
    if |dir| > 0 {
      var up := Parent(dir);
      forall m | 0 <= m <= |up| ensures NoConfigAt(up[..m], stat) {
        assert up[..m] == dir[..m];
      }
      SearchFindsNone(up, stat);
    }
  }

  /** With no explicit path and no config file on the ancestor chain, the outcome is not-exist. */
  lemma NoConfigAnywhere(fs: FileSystem)
    requires fs.getwd.Ok?
    requires forall m :: 0 <= m <= |fs.getwd.value| ==> NoConfigAt(fs.getwd.value[..m], fs.stat)
    ensures FindAndParse("", fs) == Err(NotExist)
  {
    SearchFindsNone(fs.getwd.value, fs.stat);
  }

  /**
   * An explicit path is read verbatim, and when it names no file the outcome
   * is not-exist, which `Load` treats like a missing search result.
   */
  lemma ExplicitMissingFileIsNotExist(configPath: string, fs: FileSystem)
    requires configPath != ""
    ensures ChosenPath(configPath, fs) == Ok(configPath)
    ensures fs.readFile(configPath) == Err(NotExist) ==> FindAndParse(configPath, fs) == Err(NotExist)
  {
  }

  /** A file that is read but does not decode is a failure carrying the decoder's message, never not-exist. */
  lemma DecodeFailureIsFailure(configPath: string, fs: FileSystem)
    requires ChosenPath(configPath, fs).Ok?
    requires fs.readFile(ChosenPath(configPath, fs).value).Ok?
    ensures var path := ChosenPath(configPath, fs).value;
            var bytes := fs.readFile(path).value;
            var decoded := if Ext(path) == ".toml" then fs.decodeToml(bytes) else fs.decodeJson(bytes);
            decoded.Err? ==> FindAndParse(configPath, fs) == Err(Failure(decoded.error))
  {
  }

  // ---------------------------------------------------------------------
  // The merge

  /** `order` lists every key of `env` exactly once: one possible iteration order of a Go map. */
  predicate IsEnumeration(order: seq<string>, env: map<string, string>) {
    multiset(order) == multiset(env.Keys)
  }

  lemma EnumerationFacts(order: seq<string>, env: map<string, string>)
    requires IsEnumeration(order, env)
    ensures |order| == |env|
    ensures forall i :: 0 <= i < |order| ==> order[i] in env
    ensures forall k :: k in env ==> k in order
  {
    assert |multiset(order)| == |order|;
    assert |multiset(env.Keys)| == |env.Keys|;
    forall i | 0 <= i < |order| ensures order[i] in env {
      assert order[i] in multiset(order);
    }
    forall k | k in env ensures k in order {
      assert k in multiset(env.Keys);
    }
  }

  /** The `k=v` strings for the keys of `env` in the order `order`. */
  function Assignments(order: seq<string>, env: map<string, string>): (entries: seq<string>)
    requires forall i :: 0 <= i < |order| ==> order[i] in env
    ensures |entries| == |order|
  {
    seq(|order|, i requires 0 <= i < |order| => order[i] + "=" + env[order[i]])
  }

  /**
   * The loop over `cfg.Env` in `Load`: one `k=v` per entry, in the map's
   * iteration order, which Go leaves unspecified (here: any order).
   */
  method ConfigEnvs(env: map<string, string>) returns (entries: seq<string>, order: seq<string>)
    ensures IsEnumeration(order, env)
    ensures forall i :: 0 <= i < |order| ==> order[i] in env
    ensures entries == Assignments(order, env)
  {
    entries, order := [], [];
    var rest := env.Keys;
    while rest != {}
      invariant rest <= env.Keys
      invariant multiset(order) + multiset(rest) == multiset(env.Keys)
      invariant forall i :: 0 <= i < |order| ==> order[i] in env
      invariant entries == Assignments(order, env)
      decreases rest
    {
      var k :| k in rest;
      entries := entries + [k + "=" + env[k]];
      order := order + [k];
      assert multiset(rest) == multiset(rest - {k}) + multiset{k};
      rest := rest - {k};
    }
  }

  /**
   * The env after the merge: the config entries in the order `order`, then the
   * command-line entries, none dropped and none merged.
   */
  function PrependConfigEnv(cliEnv: seq<string>, env: map<string, string>, order: seq<string>): (r: seq<string>)
    requires IsEnumeration(order, env)
    ensures |r| == |env| + |cliEnv|
    ensures r[|env|..] == cliEnv
    ensures forall k :: k in env ==> k + "=" + env[k] in r[..|env|]
    ensures forall i :: 0 <= i < |env| ==> exists k :: k in env && r[i] == k + "=" + env[k]
  {
    EnumerationFacts(order, env);
    var entries := Assignments(order, env);
    assert forall k :: k in env ==> k + "=" + env[k] in entries by {
      forall k | k in env ensures k + "=" + env[k] in entries {
        var i :| 0 <= i < |order| && order[i] == k;
        assert entries[i] == k + "=" + env[k];
      }
    }
    if |env| > 0 then entries + cliEnv else cliEnv
  }

  /** The first run of `Load`'s field copies: target host, directory and the execution switches. */
  function MergeHostAndMode(o: Options, cfg: Config): Options {
    o.(host := if o.host == "" then cfg.ssh.host else o.host,
       dir := if o.dir == "" then cfg.exec.dir else o.dir,
       shell := if !o.shell && cfg.exec.shell then cfg.exec.shell else o.shell,
       stdin := if !o.stdin && cfg.exec.stdin then cfg.exec.stdin else o.stdin,
       pty := if !o.pty && cfg.exec.pty then cfg.exec.pty else o.pty)
  }

  /** The second run: the `[log]` section. */
  function MergeLog(o: Options, cfg: Config): Options {
    o.(logPath := if o.logPath == "" then cfg.log.path else o.logPath,
       append := if !o.append && cfg.log.append then cfg.log.append else o.append,
       timestamps := if !o.timestamps && cfg.log.timestamps then cfg.log.timestamps else o.timestamps,
       split := if !o.split && cfg.log.split then cfg.log.split else o.split)
  }

  /** The third run: identity, ssh_config path and the timeout, parsed with `parseDuration`. */
  function MergeCredentialsAndTimeout(o: Options, cfg: Config, parseDuration: string -> Option<Int64>): Options {
    o.(identity := if o.identity == "" then cfg.ssh.identity else o.identity,
       sshConfigPath := if o.sshConfigPath == "" then cfg.ssh.sshConfig else o.sshConfigPath,
       timeout :=
         if o.timeout == 0 && cfg.exec.timeout != "" && parseDuration(cfg.exec.timeout).Some?
         then parseDuration(cfg.exec.timeout).value else o.timeout)
  }

  /** The options without their env after `Load` has merged the scalar fields of `cfg` into `o`. */
  function MergedScalars(o: Options, cfg: Config, parseDuration: string -> Option<Int64>): Options {
    MergeCredentialsAndTimeout(MergeLog(MergeHostAndMode(o, cfg), cfg), cfg, parseDuration)
  }

  /**
   * The options after `Load` has merged `cfg` into `o`, the config env being
   * iterated in the order `order`.
   */
  function Merged(o: Options, cfg: Config, parseDuration: string -> Option<Int64>, order: seq<string>): (r: Options)
    requires IsEnumeration(order, cfg.env)
    // A string set on the command line is kept; an empty one is taken from the file.
    ensures o.host != "" ==> r.host == o.host
    ensures o.host == "" ==> r.host == cfg.ssh.host
    ensures o.dir != "" ==> r.dir == o.dir
    ensures o.dir == "" ==> r.dir == cfg.exec.dir
    ensures o.logPath != "" ==> r.logPath == o.logPath
    ensures o.logPath == "" ==> r.logPath == cfg.log.path
    ensures o.identity != "" ==> r.identity == o.identity
    ensures o.identity == "" ==> r.identity == cfg.ssh.identity
    ensures o.sshConfigPath != "" ==> r.sshConfigPath == o.sshConfigPath
    ensures o.sshConfigPath == "" ==> r.sshConfigPath == cfg.ssh.sshConfig
    // The file can switch a flag on, never off.
    ensures r.shell == (o.shell || cfg.exec.shell)
    ensures r.stdin == (o.stdin || cfg.exec.stdin)
    ensures r.pty == (o.pty || cfg.exec.pty)
    ensures r.append == (o.append || cfg.log.append)
    ensures r.timestamps == (o.timestamps || cfg.log.timestamps)
    ensures r.split == (o.split || cfg.log.split)
    // The timeout changes only from zero, and only to the parsed file value.
    ensures r.timeout != o.timeout ==>
              o.timeout == 0 && cfg.exec.timeout != "" && parseDuration(cfg.exec.timeout) == Some(r.timeout)
    ensures o.timeout == 0 && cfg.exec.timeout != "" && parseDuration(cfg.exec.timeout).Some? ==>
              r.timeout == parseDuration(cfg.exec.timeout).value
    // The file's env entries come first, then the command line's, none dropped.
    ensures |r.env| == |cfg.env| + |o.env|
    ensures r.env[|cfg.env|..] == o.env
    ensures forall k :: k in cfg.env ==> k + "=" + cfg.env[k] in r.env[..|cfg.env|]
    ensures forall i :: 0 <= i < |cfg.env| ==> exists k :: k in cfg.env && r.env[i] == k + "=" + cfg.env[k]
    // The command and the config path are not touched.
    ensures r.command == o.command && r.configPath == o.configPath
  {
    MergedScalars(o, cfg, parseDuration).(env := PrependConfigEnv(o.env, cfg.env, order))
  }

  /** A document whose every field is zero leaves the options as they were. */
  lemma MergeEmptyConfig(o: Options, parseDuration: string -> Option<Int64>)
    ensures IsEnumeration([], EmptyConfig.env)
    ensures Merged(o, EmptyConfig, parseDuration, []) == o
  {
  }

  /** Merging the same document a second time changes no field except the env, which grows again. */
  lemma MergeTwice(o: Options, cfg: Config, parseDuration: string -> Option<Int64>, order: seq<string>)
    requires IsEnumeration(order, cfg.env)
    ensures var once := Merged(o, cfg, parseDuration, order);
            Merged(once, cfg, parseDuration, order).(env := once.env) == once
  {
  }

  /** Config `env = {A = "1"}` and `--env B=2` give exactly `["A=1", "B=2"]`, whatever the map order. */
  lemma EnvConcatenationExample(o: Options, parseDuration: string -> Option<Int64>, order: seq<string>)
    requires o.env == ["B=2"]
    requires IsEnumeration(order, map["A" := "1"])
    ensures Merged(o, EmptyConfig.(env := map["A" := "1"]), parseDuration, order).env == ["A=1", "B=2"]
  {
    var env := map["A" := "1"];
    EnumerationFacts(order, env);
    assert order[0] in env;
    assert order == ["A"];
    assert Assignments(order, env)[0] == "A=1";
    assert Assignments(order, env) == ["A=1"];
  }

  /**
   * `Load`: finds and decodes the config file, then overwrites the unset
   * fields of `opts` in place. A missing file leaves `opts` as it was and is no
   * error; any other failure is returned, with no field changed.
   */
  method Load(opts: CliOptions, fs: FileSystem, parseDuration: string -> Option<Int64>)
    returns (r: CliOptions?, err: Option<Error>)
    modifies opts
    ensures FindAndParse(old(opts.configPath), fs) == Err(NotExist) ==>
              r == opts && err == None && opts.Value() == old(opts.Value())
    ensures FindAndParse(old(opts.configPath), fs).Err? && FindAndParse(old(opts.configPath), fs) != Err(NotExist) ==>
              r == null && err == Some(FindAndParse(old(opts.configPath), fs).error) && opts.Value() == old(opts.Value())
    ensures FindAndParse(old(opts.configPath), fs).Ok? ==>
              var cfg := FindAndParse(old(opts.configPath), fs).value;
              && r == opts && err == None
              && exists order :: IsEnumeration(order, cfg.env)
                                 && opts.Value() == Merged(old(opts.Value()), cfg, parseDuration, order)
  {
    var found := FindAndParseConfig(opts.configPath, fs);
    if found.Err? {
      if found.error == NotExist {
        return opts, None;
      }
      return null, Some(found.error);
    }
    var cfg := found.value;
    MergeScalarsInPlace(opts, cfg, parseDuration);

    var order: seq<string> := [];
    if |cfg.env| > 0 {
      var configEnvs;
      configEnvs, order := ConfigEnvs(cfg.env);
      opts.env := configEnvs + opts.env;
    } else {
      assert multiset(cfg.env.Keys) == multiset{};
    }
    assert IsEnumeration(order, cfg.env);
    assert opts.Value() == Merged(old(opts.Value()), cfg, parseDuration, order);
    return opts, None;
  }

  /** The field-by-field part of `Load`: each unset field of `opts` is overwritten from `cfg`. */
  method MergeScalarsInPlace(opts: CliOptions, cfg: Config, parseDuration: string -> Option<Int64>)
    modifies opts
    ensures opts.Value() == MergedScalars(old(opts.Value()), cfg, parseDuration)
  {
    MergeHostAndModeIn(opts, cfg);
    MergeLogIn(opts, cfg);
    MergeCredentialsAndTimeoutIn(opts, cfg, parseDuration);
  }

  /** Copies host, directory and the execution switches. */
  method MergeHostAndModeIn(opts: CliOptions, cfg: Config)
    modifies opts
    ensures opts.Value() == MergeHostAndMode(old(opts.Value()), cfg)
  {
    if opts.host == "" {
      opts.host := cfg.ssh.host;
    }
    if opts.dir == "" {
      opts.dir := cfg.exec.dir;
    }
    if !opts.shell && cfg.exec.shell {
      opts.shell := cfg.exec.shell;
    }
    if !opts.stdin && cfg.exec.stdin {
      opts.stdin := cfg.exec.stdin;
    }
    if !opts.pty && cfg.exec.pty {
      opts.pty := cfg.exec.pty;
    }
  }

  /** Copies the `[log]` section. */
  method MergeLogIn(opts: CliOptions, cfg: Config)
    modifies opts
    ensures opts.Value() == MergeLog(old(opts.Value()), cfg)
  {
    if opts.logPath == "" {
      opts.logPath := cfg.log.path;
    }
    if !opts.append && cfg.log.append {
      opts.append := cfg.log.append;
    }
    if !opts.timestamps && cfg.log.timestamps {
      opts.timestamps := cfg.log.timestamps;
    }
    if !opts.split && cfg.log.split {
      opts.split := cfg.log.split;
    }
  }

  /** Copies identity and ssh_config path, and the timeout when it parses. */
  method MergeCredentialsAndTimeoutIn(opts: CliOptions, cfg: Config, parseDuration: string -> Option<Int64>)
    modifies opts
    ensures opts.Value() == MergeCredentialsAndTimeout(old(opts.Value()), cfg, parseDuration)
  {
    if opts.identity == "" {
      opts.identity := cfg.ssh.identity;
    }
    if opts.sshConfigPath == "" {
      opts.sshConfigPath := cfg.ssh.sshConfig;
    }
    if opts.timeout == 0 && cfg.exec.timeout != "" {
      var d := parseDuration(cfg.exec.timeout);
      if d.Some? {
        opts.timeout := d.value;
      }
    }
  }
}
