/**
 * internal/exec/exec.go: the rendering of the command string sent to the
 * remote side, and the mapping from a session error to a process exit code.
 *
 * The string is `cd <dir> && ` (when a directory is set), then one
 * `export <entry> && ` per environment entry, then the payload: the command
 * tokens joined by single spaces, emitted verbatim in argv mode, or in shell
 * mode quoted with the POSIX single-quote technique and handed to
 * `bash -lc`.
 */
module Exec {
  import opened Wrappers
  import opened Text
  import opened Types

  /** What every single quote of the payload becomes: close the quoted text, an escaped quote, reopen. */
  const EscapedQuote: string := "'\\''"

  /** `fmt.Sprintf("export %s", e)`. */
  function ExportLine(entry: string): string {
    "export " + entry
  }

  /** The export statements for `env`, in order. */
  function Exports(env: seq<string>): (lines: seq<string>)
    ensures |lines| == |env|
  {
    seq(|env|, i requires 0 <= i < |env| => ExportLine(env[i]))
  }

  /** The environment prefix as exec.go builds it: exports joined by " && ", plus one trailing " && ". */
  function EnvPrefix(env: seq<string>): string {
    if |env| > 0 then Join(Exports(env), " && ") + " && " else ""
  }

  /** The directory prefix; the directory is not escaped. */
  function CdPrefix(dir: string): string {
    if dir != "" then "cd " + dir + " && " else ""
  }

  /** `strings.ReplaceAll(command, "'", "'\\''")`. */
  function Escape(payload: string): string {
    ReplaceAll(payload, "'", EscapedQuote)
  }

  /** The string `BuildRemoteCommand` produces for the options `o`. */
  function RemoteCommand(o: Options): string {
    var command := Join(o.command, " ");
    if o.shell then CdPrefix(o.dir) + EnvPrefix(o.env) + "bash -lc '" + Escape(command) + "'"
    else CdPrefix(o.dir) + EnvPrefix(o.env) + command
  }

  /** `BuildRemoteCommand`: the export lines are collected in a loop, then everything is concatenated. */
  method BuildRemoteCommand(opts: CliOptions) returns (cmd: string)
    ensures cmd == RemoteCommand(opts.Value())
  {
    var envs := "";
    if |opts.env| > 0 {
      var envParts: seq<string> := [];
      for i := 0 to |opts.env|
        invariant |envParts| == i
        invariant forall j :: 0 <= j < i ==> envParts[j] == ExportLine(opts.env[j])
      {
        envParts := envParts + [ExportLine(opts.env[i])];
      }
      assert envParts == Exports(opts.env);
      envs := Join(envParts, " && ") + " && ";
    }

    var cd := "";
    if opts.dir != "" {
      cd := "cd " + opts.dir + " && ";
    }

    var command := Join(opts.command, " ");
    if opts.shell {
      var escapedCommand := ReplaceAll(command, "'", EscapedQuote);
      return cd + envs + "bash -lc '" + escapedCommand + "'";
    }
    return cd + envs + command;
  }

  // ---------------------------------------------------------------------
  // The environment prefix, entry by entry

  /** Reference reading of the environment prefix: each entry contributes `export <entry> && `. */
  function ExportChain(env: seq<string>): string
    decreases |env|
  {
    if |env| == 0 then "" else ExportLine(env[0]) + " && " + ExportChain(env[1..])
  }

  /** The join-based prefix equals one `export <entry> && ` per entry, in input order. */
  lemma {:induction false} EnvPrefixIsExportChain(env: seq<string>)
    ensures EnvPrefix(env) == ExportChain(env)
    decreases |env|
  {
    if |env| > 1 {
      EnvPrefixIsExportChain(env[1..]);
      assert Exports(env)[1..] == Exports(env[1..]);
      assert Exports(env)[0] == ExportLine(env[0]);
    } else if |env| == 1 {
      assert env[1..] == [];
    }
  }

  // ---------------------------------------------------------------------
  // Shell-mode quoting (POSIX.1-2017, XCU section 2.2: Quoting)

  /**
   * The value the shell gives the word `t` by quote removal, when `t` consists
   * only of single-quoted text (section 2.2.2) and backslash-escaped characters
   * (section 2.2.1); `quoted` says whether a single quote is open. `None` when
   * `t` holds anything else, an unescaped character that the shell would go
   * on to interpret, or an unterminated quote.
   */
  function Dequote(t: string, quoted: bool): Option<string>
    decreases |t|
  {
    if |t| == 0 then (if quoted then None else Some([]))
    else if quoted then
      if t[0] == '\'' then Dequote(t[1..], false) else Prepend(t[0], Dequote(t[1..], true))
    else if t[0] == '\'' then Dequote(t[1..], true)
    else if t[0] == '\\' && |t| >= 2 && t[1] != '\n' then Prepend(t[1], Dequote(t[2..], false))
    else None
  }

  function Prepend(c: char, rest: Option<string>): Option<string> {
    match rest
    case None => None
    case Some(s) => Some([c] + s)
  }

  lemma EscapeFirst(s: string)
    requires |s| > 0
    ensures Escape(s) == (if s[0] == '\'' then EscapedQuote else [s[0]]) + Escape(s[1..])
  {
    assert s[..1] == [s[0]];
  }

  lemma {:induction false} DequoteEscaped(s: string)
    ensures Dequote(Escape(s) + "'", true) == Some(s)
    decreases |s|
  {
    if |s| == 0 {
      assert Escape(s) + "'" == "'";
    } else {
      EscapeFirst(s);
      DequoteEscaped(s[1..]);
      var tail := Escape(s[1..]) + "'";
      var t := Escape(s) + "'";
      if s[0] == '\'' {
        assert t == EscapedQuote + tail;
        var u := t[1..];
        assert u == ['\\', '\''] + (['\''] + tail);
        assert Dequote(t, true) == Dequote(u, false);
        assert u[0] == '\\' && u[1] == '\'' && |u| >= 2;
        assert Dequote(u, false) == Prepend('\'', Dequote(u[2..], false));
        var w := u[2..];
        assert w == ['\''] + tail;
        assert Dequote(w, false) == Dequote(w[1..], true);
        assert w[1..] == tail;
        assert [s[0]] + s[1..] == s;
      } else {
        assert t == [s[0]] + tail;
        assert t[1..] == tail;
        assert [s[0]] + s[1..] == s;
      }
    }
  }

  /**
   * The single-quoted word that shell mode hands to `bash -lc` is one shell
   * word whose value is exactly the payload: no payload can end the quoting
   * early.
   */
  lemma ShellWordIsPayload(payload: string)
    ensures Dequote("'" + Escape(payload) + "'", false) == Some(payload)
  {
    DequoteEscaped(payload);
    var t := "'" + Escape(payload) + "'";
    assert t[1..] == Escape(payload) + "'";
  }

  /** Every single quote of `t` belongs to an escaped-quote group `'\''`. */
  predicate QuotesOnlyInEscapes(t: string)
    decreases |t|
  {
    if |t| == 0 then true
    else if |t| >= 4 && t[..4] == EscapedQuote then QuotesOnlyInEscapes(t[4..])
    else t[0] != '\'' && QuotesOnlyInEscapes(t[1..])
  }

  /** The escaped payload holds no single quote outside an escaped-quote group. */
  lemma {:induction false} EscapeLeavesNoBareQuote(s: string)
    ensures QuotesOnlyInEscapes(Escape(s))
    decreases |s|
  {
    if |s| > 0 {
      EscapeFirst(s);
      EscapeLeavesNoBareQuote(s[1..]);
      var t := Escape(s);
      if s[0] == '\'' {
        assert t[..4] == EscapedQuote && t[4..] == Escape(s[1..]);
      } else {
        assert t == [s[0]] + Escape(s[1..]);
        assert t[0] == s[0] && t[1..] == Escape(s[1..]);
        if |t| >= 4 {
          assert t[..4][0] == s[0];
        }
      }
    }
  }

  /** Replacing every escaped-quote group back with a single quote recovers the payload. */
  lemma {:induction false} EscapeRoundTrip(s: string)
    ensures ReplaceAll(Escape(s), EscapedQuote, "'") == s
    decreases |s|
  {
    if |s| > 0 {
      EscapeFirst(s);
      EscapeRoundTrip(s[1..]);
      var rest := Escape(s[1..]);
      var t := Escape(s);
      if s[0] == '\'' {
        assert t[..4] == EscapedQuote && t[4..] == rest;
      } else {
        assert t == [s[0]] + rest && t[1..] == rest;
        if |t| >= 4 {
          assert t[..4][0] == s[0];
        }
      }
    }
  }

  /** Escaping works character by character, so it distributes over concatenation. */
  lemma {:induction false} EscapeAppend(a: string, b: string)
    ensures Escape(a + b) == Escape(a) + Escape(b)
    decreases |a|
  {
    if |a| > 0 {
      EscapeFirst(a);
      EscapeFirst(a + b);
      assert (a + b)[0] == a[0] && (a + b)[1..] == a[1..] + b;
      EscapeAppend(a[1..], b);
    } else {
      assert a + b == b;
    }
  }

  /** A payload without single quotes is left as it is. */
  lemma {:induction false} EscapeWithoutQuotes(s: string)
    requires '\'' !in s
    ensures Escape(s) == s
    decreases |s|
  {
    if |s| > 0 {
      EscapeFirst(s);
      EscapeWithoutQuotes(s[1..]);
      assert [s[0]] + s[1..] == s;
    }
  }

  /** Argv mode with no directory and no environment: the tokens joined by single spaces. */
  lemma ArgvExample()
    ensures RemoteCommand(ZeroOptions.(command := ["echo", "hi"])) == "echo hi"
  {
    assert Join(["echo", "hi"], " ") == "echo hi";
  }

  /** The one quote of `echo it's` becomes an escaped-quote group. */
  lemma EscapeExample()
    ensures Escape("echo it" + "'" + "s") == "echo it" + EscapedQuote + "s"
  {
    EscapeAppend("echo it" + "'", "s");
    EscapeAppend("echo it", "'");
    EscapeWithoutQuotes("echo it");
    EscapeWithoutQuotes("s");
    EscapeFirst("'");
  }

  /** Shell mode wraps the escaped payload as the single argument of `bash -lc`. */
  lemma ShellQuoteExample()
    ensures RemoteCommand(ZeroOptions.(shell := true, command := ["echo", "it's"]))
            == "bash -lc '" + ("echo it" + EscapedQuote + "s") + "'"
  {
    var o := ZeroOptions.(shell := true, command := ["echo", "it's"]);
    assert o.command[1..] == ["it's"];
    var payload := Join(o.command, " ");
    assert payload == "echo" + " " + "it's";
    assert payload == "echo it" + "'" + "s";
    EscapeExample();
    var escaped := "echo it" + EscapedQuote + "s";
    assert Escape(payload) == escaped;
    assert CdPrefix(o.dir) + EnvPrefix(o.env) == "";
    assert RemoteCommand(o) == "bash -lc '" + escaped + "'";
  }

  /** Full composition: the directory change comes first, then the exports, then the payload. */
  lemma CompositionExample()
    ensures RemoteCommand(ZeroOptions.(dir := "/tmp", env := ["A=1"], command := ["ls"]))
            == "cd /tmp && export A=1 && ls"
  {
    assert Exports(["A=1"])[0] == "export A=1";
    assert Exports(["A=1"]) == ["export A=1"];
  }

  // ---------------------------------------------------------------------
  // Exit status

  /**
   * A session error as `ExitStatusOf` sees it: the remote process's exit
   * status (`*ssh.ExitError`, the "exit-status" request of section 6.10 of
   * RFC 4254), an error wrapping another, or any other failure.
   */
  datatype RunError =
    | ExitError(status: int)
    | Wrapped(context: string, cause: RunError)
    | OtherError(message: string)

  /**
   * `ExitStatusOf`: 0 for no error, the remote status verbatim for an exit
   * error, 1 for everything else; the type assertion does not look inside a
   * wrapping error.
   */
  function ExitStatusOf(err: Option<RunError>): (code: int)
    ensures code == 0 <==> err == None || err == Some(ExitError(0))
    ensures err.Some? && err.value.ExitError? ==> code == err.value.status
    ensures err.Some? && !err.value.ExitError? ==> code == 1
  {
    match err
    case None => 0
    case Some(ExitError(status)) => status
    case Some(_) => 1
  }
}
