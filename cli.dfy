/**
 * internal/cli/cli.go: splitting the command line at the first "--" into
 * flags and the remote command, and the order in which a flag error, a help
 * request and a missing command are reported.
 *
 * The Go `flag` package is abstract: given the tokens before the separator it
 * either fails with a message or yields the values its flag definitions write
 * into the options, the values given to `-env` in the order they appear, the
 * `-help` switch, and the arguments left after the flags.
 */
module Cli {
  import opened Wrappers
  import opened Text
  import opened Types

  /** `stringSlice`: the repeatable `-env` flag's value. */
  class StringSlice {
    var items: seq<string>

    constructor ()
      ensures items == []
    {
      items := [];
    }

    /** `(*stringSlice).Set`: appends the value at the end and never fails. */
    method Set(value: string) returns (err: Option<string>)
      modifies this
      ensures items == old(items) + [value]
      ensures err == None
    {
      items := items + [value];
      err := None;
    }
  }

  /**
   * The outcome of `fs.Parse(tokens)`. `values` holds what the flag
   * definitions write (every field except `env` and `command`, which no flag
   * writes); `envValues` are the arguments of the `-env` occurrences, in order;
   * `rest` is `fs.Args()`.
   */
  datatype FlagResult =
    | FlagError(message: string)
    | Flags(values: Options, envValues: seq<string>, help: bool, rest: seq<string>)

  type FlagParser = seq<string> -> FlagResult

  const Separator: string := "--"

  const CommandRequired: string := "error: command is required"

  /** The outcome of `Parse`: the options, the help request `(nil, true, nil)`, or an error. */
  datatype ParseOutcome =
    | Parsed(options: Options)
    | HelpRequested
    | Failed(message: string)

  /** The tokens handed to the flag parser: those before the first separator, or all of them. */
  function FlagTokens(args: seq<string>): (tokens: seq<string>)
    ensures Separator !in tokens
    ensures tokens <= args
    ensures |tokens| < |args| ==> args[|tokens|] == Separator
  {
    var sep := IndexOf(args, Separator);
    if sep != -1 then args[..sep] else args
  }

  /** The command: everything after the first separator, else the flag parser's leftovers. */
  function CommandArgs(args: seq<string>, rest: seq<string>): (command: seq<string>)
    ensures Separator in args ==> args == FlagTokens(args) + [Separator] + command
    ensures Separator !in args ==> command == rest
  {
    var sep := IndexOf(args, Separator);
    if sep != -1 then
      assert args == args[..sep] + [Separator] + args[sep + 1..];
      if sep + 1 < |args| then args[sep + 1..] else []
    else rest
  }

  /** What `Parse` returns for the arguments `args` (os.Args[1:]). */
  function ParseArgs(args: seq<string>, parseFlags: FlagParser): (r: ParseOutcome)
    ensures parseFlags(FlagTokens(args)).FlagError? ==> r == Failed(parseFlags(FlagTokens(args)).message)
    ensures r.Parsed? ==>
              var flags := parseFlags(FlagTokens(args));
              && flags.Flags? && !flags.help
              && r.options.command == CommandArgs(args, flags.rest) && |r.options.command| > 0
              && r.options.env == flags.envValues
              && r.options.(env := flags.values.env, command := flags.values.command) == flags.values
    ensures r == HelpRequested <==> parseFlags(FlagTokens(args)).Flags? && parseFlags(FlagTokens(args)).help
  {
    match parseFlags(FlagTokens(args))
    case FlagError(message) => Failed(message)
    case Flags(values, envValues, help, rest) =>
      var command := CommandArgs(args, rest);
      if help then HelpRequested
      else if |command| == 0 then Failed(CommandRequired)
      else Parsed(values.(env := envValues, command := command))
  }

  /** What the flag definitions write into a fresh options record. */
  method StoreFlagValues(opts: CliOptions, values: Options)
    modifies opts
    ensures opts.Value() == values.(env := old(opts.env), command := old(opts.command))
  {
    opts.host, opts.dir, opts.shell, opts.stdin, opts.pty := values.host, values.dir, values.shell, values.stdin, values.pty;
    opts.logPath, opts.append, opts.timestamps, opts.split := values.logPath, values.append, values.timestamps, values.split;
    opts.identity, opts.sshConfigPath, opts.configPath := values.identity, values.sshConfigPath, values.configPath;
    opts.timeout := values.timeout;
  }

  /** `Parse`: the separator scan, the flag parse, then the help and command checks. */
  method Parse(args: seq<string>, parseFlags: FlagParser) returns (opts: CliOptions?, help: bool, err: Option<string>)
    ensures ParseArgs(args, parseFlags).Parsed? ==>
              opts != null && fresh(opts) && opts.Value() == ParseArgs(args, parseFlags).options && !help && err == None
    ensures ParseArgs(args, parseFlags) == HelpRequested ==> opts == null && help && err == None
    ensures ParseArgs(args, parseFlags).Failed? ==>
              opts == null && !help && err == Some(ParseArgs(args, parseFlags).message)
  {
    var o := new CliOptions();
    var envs := new StringSlice();

    var separatorIndex := -1;
    var i := 0;
    while i < |args|
      invariant 0 <= i <= |args|
      invariant Separator !in args[..i]
    {
      if args[i] == Separator {
        separatorIndex := i;
        break;
      }
      i := i + 1;
    }
    assert separatorIndex != -1 ==> IndexOf(args, Separator) == separatorIndex by {
      if separatorIndex != -1 {
        IndexOfAt(args, Separator, separatorIndex);
      }
    }
    assert separatorIndex == -1 ==> args[..i] == args;

    var tokens := if separatorIndex != -1 then args[..separatorIndex] else args;
    assert tokens == FlagTokens(args);
    var flags := parseFlags(tokens);
    if flags.FlagError? {
      return null, false, Some(flags.message);
    }
    StoreFlagValues(o, flags.values);
    for k := 0 to |flags.envValues|
      invariant envs.items == flags.envValues[..k]
      invariant o.Value() == flags.values.(env := [], command := [])
    {
      var _ := envs.Set(flags.envValues[k]);
    }
    assert flags.envValues[..|flags.envValues|] == flags.envValues;

    var commandArgs: seq<string> := [];
    if separatorIndex != -1 {
      if separatorIndex + 1 < |args| {
        commandArgs := args[separatorIndex + 1..];
      }
    } else {
      commandArgs := flags.rest;
    }
    assert commandArgs == CommandArgs(args, flags.rest);

    if flags.help {
      return null, true, None;
    }
    if |commandArgs| == 0 {
      return null, false, Some(CommandRequired);
    }
    o.env := envs.items;
    o.command := commandArgs;
    assert o.Value() == flags.values.(env := flags.envValues, command := commandArgs);
    assert ParseArgs(args, parseFlags) == Parsed(o.Value());
    return o, false, None;
  }

  // ---------------------------------------------------------------------
  // Properties of the split

  /**
   * Only the tokens before the first separator are parsed as flags, and the
   * command is everything after it, verbatim, later separators included.
   */
  lemma CommandAfterFirstSeparator(pre: seq<string>, post: seq<string>, parseFlags: FlagParser)
    requires Separator !in pre
    ensures FlagTokens(pre + [Separator] + post) == pre
    ensures parseFlags(pre).Flags? && !parseFlags(pre).help && |post| > 0 ==>
              ParseArgs(pre + [Separator] + post, parseFlags)
              == Parsed(parseFlags(pre).values.(env := parseFlags(pre).envValues, command := post))
  {
    var args := pre + [Separator] + post;
    assert args[|pre|] == Separator && args[..|pre|] == pre;
    IndexOfAt(args, Separator, |pre|);
    assert args[|pre| + 1..] == post;
  }

  /** Without a separator every token goes to the flag parser and the command is what it leaves over. */
  lemma NoSeparatorCommandIsRest(args: seq<string>, parseFlags: FlagParser)
    requires Separator !in args
    requires parseFlags(args).Flags? && !parseFlags(args).help && |parseFlags(args).rest| > 0
    ensures ParseArgs(args, parseFlags)
            == Parsed(parseFlags(args).values.(env := parseFlags(args).envValues, command := parseFlags(args).rest))
  {
    assert FlagTokens(args) == args;
  }

  /** A separator with nothing after it leaves the command empty, which is reported unless help was asked for. */
  lemma TrailingSeparatorNeedsCommand(pre: seq<string>, parseFlags: FlagParser)
    requires Separator !in pre
    requires parseFlags(pre).Flags? && !parseFlags(pre).help
    ensures ParseArgs(pre + [Separator], parseFlags) == Failed(CommandRequired)
  {
    var args := pre + [Separator];
    assert args == pre + [Separator] + [];
    CommandAfterFirstSeparator(pre, [], parseFlags);
    assert CommandArgs(args, parseFlags(pre).rest) == [];
  }

  /** The precedence of the outcomes: a flag error, then help, then the missing command. */
  lemma OutcomePrecedence(args: seq<string>, parseFlags: FlagParser)
    ensures var flags := parseFlags(FlagTokens(args));
            && (flags.FlagError? ==> ParseArgs(args, parseFlags) == Failed(flags.message))
            && (flags.Flags? && flags.help ==> ParseArgs(args, parseFlags) == HelpRequested)
            && (flags.Flags? && !flags.help && |CommandArgs(args, flags.rest)| == 0 ==>
                  ParseArgs(args, parseFlags) == Failed(CommandRequired))
  {
  }

  /** Repeated `-env` values are kept in the order they are set. */
  method EnvOrderExample() returns (s: StringSlice)
    ensures s.items == ["A=1", "B=2", "A=3"]
  {
    s := new StringSlice();
    var _ := s.Set("A=1");
    var _ := s.Set("B=2");
    var _ := s.Set("A=3");
  }
}
