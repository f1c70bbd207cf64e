/**
 * The few Go library string routines the core relies on, written out so that
 * their edge cases are part of the model: `strings.Join`, `strings.ReplaceAll`,
 * first and last index of an element, `strconv.Atoi`, the `%d`
 * verb of `fmt`, `filepath.Ext`, and `filepath.Join` under `~/.ssh`.
 */
module Text {
  import opened Wrappers

  const MinInt64: int := -0x8000_0000_0000_0000
  const MaxInt64: int := 0x7fff_ffff_ffff_ffff

  /** Go's `int` (and `time.Duration`) on a 64-bit platform. */
  type Int64 = x: int | MinInt64 <= x <= MaxInt64

  /** `strings.Join(elems, sep)`: the elements with `sep` between neighbours. */
  function Join(elems: seq<string>, sep: string): string
    decreases |elems|
  {
    if |elems| == 0 then ""
    else if |elems| == 1 then elems[0]
    else elems[0] + sep + Join(elems[1..], sep)
  }

  /**
   * `strings.ReplaceAll(s, pattern, replacement)`: leftmost, non-overlapping
   * replacement. An empty pattern matches before every character and at the end.
   */
  function ReplaceAll(s: string, pattern: string, replacement: string): string
    decreases |s|
  {
    if |pattern| == 0 then
      if |s| == 0 then replacement
      else replacement + [s[0]] + ReplaceAll(s[1..], pattern, replacement)
    else if |s| < |pattern| then s
    else if s[..|pattern|] == pattern then
      replacement + ReplaceAll(s[|pattern|..], pattern, replacement)
    else [s[0]] + ReplaceAll(s[1..], pattern, replacement)
  }

  predicate IsDigit(c: char) {
    '0' <= c <= '9'
  }

  predicate AllDigits(s: string) {
    forall i :: 0 <= i < |s| ==> IsDigit(s[i])
  }

  function DigitChar(d: nat): (c: char)
    requires d < 10
    ensures IsDigit(c) && c as int - '0' as int == d
  {
    ('0' as int + d) as char
  }

  /** The shortest decimal numeral of `n` (no sign, no leading zero). */
  function NatDigits(n: nat): (s: string)
    ensures |s| >= 1 && AllDigits(s)
    ensures n >= 10 ==> s[..|s| - 1] == NatDigits(n / 10)
    decreases n
  {
    if n < 10 then [DigitChar(n)]
    else NatDigits(n / 10) + [DigitChar(n % 10)]
  }

  /** `fmt.Sprintf("%d", n)`. */
  function Decimal(n: int): string {
    if n < 0 then "-" + NatDigits(-n) else NatDigits(n)
  }

  /** The value of a string of decimal digits, most significant first. */
  function DigitsValue(s: string): nat
    requires AllDigits(s)
    decreases |s|
  {
    if |s| == 0 then 0
    else 10 * DigitsValue(s[..|s| - 1]) + (s[|s| - 1] as int - '0' as int)
  }

  /**
   * `strconv.Atoi(s)` with its error folded into `None`: one optional sign,
   * at least one decimal digit and nothing else, and the value must fit in a
   * 64-bit `int` (an out-of-range numeral is an error).
   */
  function Atoi(s: string): Option<Int64> {
    var negative := |s| > 0 && s[0] == '-';
    var body := if |s| > 0 && (s[0] == '-' || s[0] == '+') then s[1..] else s;
    if |body| == 0 || !AllDigits(body) then None
    else
      var v: int := if negative then -(DigitsValue(body) as int) else DigitsValue(body);
      if MinInt64 <= v <= MaxInt64 then Some(v) else None
  }

  lemma {:induction false} DigitsRoundTrip(n: nat)
    ensures DigitsValue(NatDigits(n)) == n
    decreases n
  {
    if n >= 10 {
      DigitsRoundTrip(n / 10);
    }
  }

  /** A signed numeral whose value fits in 64 bits is accepted by `Atoi` with that value. */
  lemma AtoiOfNumeral(negative: bool, digits: string)
    requires |digits| >= 1 && AllDigits(digits)
    requires MinInt64 <= (if negative then -(DigitsValue(digits) as int) else DigitsValue(digits)) <= MaxInt64
    ensures Atoi(if negative then "-" + digits else digits)
            == Some(if negative then -(DigitsValue(digits) as int) else DigitsValue(digits))
  {
    if negative {
      assert ("-" + digits)[1..] == digits;
    } else {
      assert IsDigit(digits[0]);
    }
  }

  /** Formatting an int with `%d` and reading it back with `strconv.Atoi` is the identity. */
  lemma AtoiOfDecimal(n: Int64)
    ensures Atoi(Decimal(n)) == Some(n)
  {
    var magnitude: nat := if n < 0 then -(n as int) else n;
    var digits := NatDigits(magnitude);
    DigitsRoundTrip(magnitude);
    AtoiOfNumeral(n < 0, digits);
  }

  /** `%d` writes only digits and, in front, a minus sign. */
  lemma DecimalAlphabet(n: int)
    ensures |Decimal(n)| >= 1
    ensures forall c :: c in Decimal(n) ==> c == '-' || IsDigit(c)
  {
    var digits := NatDigits(if n < 0 then -n else n);
    forall c | c in Decimal(n) ensures c == '-' || IsDigit(c) {
      if c != '-' {
        assert c in digits;
        var i :| 0 <= i < |digits| && digits[i] == c;
      }
    }
  }

  /** The first position of `x` in `s`, or -1: `strings.IndexByte` on a string. */
  function IndexOf<T(==)>(s: seq<T>, x: T): (i: int)
    ensures -1 <= i < |s|
    ensures i == -1 <==> x !in s
    ensures i >= 0 ==> s[i] == x && x !in s[..i]
    decreases |s|
  {
    if |s| == 0 then -1
    else if s[0] == x then 0
    else
      var j := IndexOf(s[1..], x);
      assert j >= 0 ==> s[..j + 1] == [s[0]] + s[1..][..j];
      if j == -1 then -1 else j + 1
  }

  /** The last position of `x` in `s`, or -1: `strings.LastIndexByte` on a string. */
  function LastIndexOf<T(==)>(s: seq<T>, x: T): (i: int)
    ensures -1 <= i < |s|
    ensures i == -1 <==> x !in s
    ensures i >= 0 ==> s[i] == x && x !in s[i + 1..]
    decreases |s|
  {
    if |s| == 0 then -1
    else if s[|s| - 1] == x then |s| - 1
    else
      assert s == s[..|s| - 1] + [s[|s| - 1]];
      LastIndexOf(s[..|s| - 1], x)
  }

  /** A position holding `x` with no `x` before it is the one `IndexOf` finds. */
  lemma IndexOfAt<T>(s: seq<T>, x: T, k: nat)
    requires k < |s| && s[k] == x && x !in s[..k]
    ensures IndexOf(s, x) == k
  {
  }

  /** A position holding `x` with no `x` after it is the one `LastIndexOf` finds. */
  lemma LastIndexOfAt<T>(s: seq<T>, x: T, k: nat)
    requires k < |s| && s[k] == x && x !in s[k + 1..]
    ensures LastIndexOf(s, x) == k
  {
  }

  /**
   * `filepath.Ext(path)` on a Unix system: the suffix starting at the last
   * '.' of the final path element, or "" when that element has no '.'.
   */
  function Ext(path: string): string {
    ExtBefore(path, |path|)
  }

  /** `Ext` restricted to the first `i` characters of `path`, scanning from the end. */
  function ExtBefore(path: string, i: nat): string
    requires i <= |path|
    decreases i
  {
    if i == 0 || path[i - 1] == '/' then ""
    else if path[i - 1] == '.' then path[i - 1..]
    else ExtBefore(path, i - 1)
  }

  lemma {:induction false} ExtBeforeSkips(path: string, lo: nat, hi: nat)
    requires lo <= hi <= |path|
    requires forall k :: lo <= k < hi ==> path[k] != '.' && path[k] != '/'
    ensures ExtBefore(path, hi) == ExtBefore(path, lo)
    decreases hi - lo
  {
    if lo < hi {
      ExtBeforeSkips(path, lo, hi - 1);
    }
  }

  /** A path ending in "." followed by a word free of '.' and '/' has that extension. */
  lemma ExtOfSuffix(stem: string, word: string)
    requires '.' !in word && '/' !in word
    ensures Ext(stem + "." + word) == "." + word
  {
    var path := stem + "." + word;
    ExtBeforeSkips(path, |stem| + 1, |path|);
    assert path[|stem|] == '.';
    assert path[|stem|..] == "." + word;
  }

  /**
   * `filepath.Join(home, ".ssh", name)` for a home directory that is already
   * clean: an empty home contributes nothing, and a trailing '/' is not doubled.
   */
  function SshDirFile(home: string, name: string): (path: string)
    ensures home != "" ==> |path| > |home| && path[..|home|] == home
    ensures |path| >= |name| + 5 && path[|path| - |name| - 5..] == ".ssh/" + name
  {
    if home == "" then ".ssh/" + name
    else if home[|home| - 1] == '/' then home + ".ssh/" + name
    else home + "/.ssh/" + name
  }
}
