/**
 * The caption template of gui.py: every `%i` in the configured format is
 * replaced by the name of the `i`-th path up from the shown file, `%0` being
 * the file's own name.
 */
module Template {
  import opened PosixPath

  /** The loop's bound on `i`. */
  const MaxSteps: nat := 50

  /** `str(n)`: the decimal digits of `n`. */
  function Decimal(n: nat): (s: string)
    ensures |s| > 0
  {
    if n < 10 then [DigitChar(n)] else Decimal(n / 10) + [DigitChar(n % 10)]
  }

  function DigitChar(d: nat): (c: char)
    requires d < 10
    ensures '0' <= c <= '9' && c as int - '0' as int == d
  {
    ('0' as int + d) as char
  }

  predicate AllDigits(s: string)
  {
    forall k :: 0 <= k < |s| ==> '0' <= s[k] <= '9'
  }

  /** The number a string of decimal digits denotes. */
  function DigitsValue(s: string): nat
    requires AllDigits(s)
  {
    if |s| == 0 then 0 else DigitsValue(s[..|s| - 1]) * 10 + (s[|s| - 1] as int - '0' as int)
  }

  /** `str(n)` is all digits, has no leading zero, and reads back as `n`. */
  lemma {:induction false} DecimalDigits(n: nat)
    ensures AllDigits(Decimal(n))
    ensures Decimal(n)[0] == '0' ==> n == 0
    ensures DigitsValue(Decimal(n)) == n
  {
    if n >= 10 {
      DecimalDigits(n / 10);
      var s := Decimal(n);
      assert s[..|s| - 1] == Decimal(n / 10);
    }
  }

  /** `f"%{i}"` */
  function Placeholder(i: nat): (s: string)
    ensures |s| > 1 && s[0] == '%'
  {
    "%" + Decimal(i)
  }

  /** `f"%{i}"` is `%` followed by the decimal digits of `i`. */
  lemma PlaceholderDigits(i: nat)
    ensures AllDigits(Placeholder(i)[1..])
    ensures DigitsValue(Placeholder(i)[1..]) == i
  {
    DecimalDigits(i);
    assert Placeholder(i)[1..] == Decimal(i);
  }

  /** Different passes look for different placeholders. */
  lemma PlaceholderInjective(i: nat, j: nat)
    requires Placeholder(i) == Placeholder(j)
    ensures i == j
  {
    PlaceholderDigits(i);
    PlaceholderDigits(j);
  }

  predicate StartsWith(s: string, prefix: string)
  {
    |prefix| <= |s| && s[..|prefix|] == prefix
  }

  /** Python's `sub in s`. */
  predicate Contains(s: string, sub: string)
  {
    StartsWith(s, sub) || (|s| > 0 && Contains(s[1..], sub))
  }

  /**
   * Python's `s.replace(pattern, replacement)` for a non-empty `pattern`: every
   * occurrence, left to right, without overlaps. A text without `pattern` is
   * unchanged.
   */
  function Replace(s: string, pattern: string, replacement: string): (r: string)
    requires pattern != []
    ensures !Contains(s, pattern) ==> r == s
    ensures s == pattern ==> r == replacement
    decreases |s|
  {
    if |s| < |pattern| then s
    else if StartsWith(s, pattern) then replacement + Replace(s[|pattern|..], pattern, replacement)
    else [s[0]] + Replace(s[1..], pattern, replacement)
  }

  /**
   * `replace` works left to right: when the leftmost occurrence of `pattern`
   * starts at `n`, the result is the text before it, the replacement, and
   * the text after it with its own occurrences replaced.
   */
  lemma {:induction false} ReplaceLeftmost(s: string, pattern: string, replacement: string, n: nat)
    requires pattern != [] && n + |pattern| <= |s| && StartsWith(s[n..], pattern)
    requires forall k {:trigger StartsWith(s[k..], pattern)} :: 0 <= k < n ==> !StartsWith(s[k..], pattern)
    ensures Replace(s, pattern, replacement)
            == s[..n] + replacement + Replace(s[n + |pattern|..], pattern, replacement)
    decreases n, 1
  {
    if n == 0 {
      assert s[0..] == s && s[..0] == [];
    } else {
      ShiftOccurrences(s, pattern, n);
      ReplaceLeftmostLater(s, pattern, replacement, n);
    }
  }

  /** The step of ReplaceLeftmost for an occurrence after the first character. */
  lemma {:induction false} ReplaceLeftmostLater(s: string, pattern: string, replacement: string, n: nat)
    requires pattern != [] && 0 < n && n + |pattern| <= |s| && !StartsWith(s, pattern)
    requires StartsWith(s[1..][n - 1..], pattern)
    requires forall k {:trigger StartsWith(s[1..][k..], pattern)} :: 0 <= k < n - 1 ==> !StartsWith(s[1..][k..], pattern)
    ensures Replace(s, pattern, replacement)
            == s[..n] + replacement + Replace(s[n + |pattern|..], pattern, replacement)
    decreases n, 0
  {
    var t := s[1..];
    var rest := Replace(s[n + |pattern|..], pattern, replacement);
    SplitAfterFirst(s, n, |pattern|);
    ReplaceLeftmost(t, pattern, replacement, n - 1);
    var inner := Replace(t, pattern, replacement);
    var tail := t[n - 1 + |pattern|..];
    assert tail == s[n + |pattern|..];
    assert Replace(tail, pattern, replacement) == rest;
    assert inner == t[..n - 1] + replacement + rest;
    calc {
      Replace(s, pattern, replacement);
      [s[0]] + inner;
      [s[0]] + (t[..n - 1] + replacement + rest);
      { AppendAfterFirst(s[0], t[..n - 1], replacement, rest); }
      [s[0]] + t[..n - 1] + replacement + rest;
      s[..n] + replacement + rest;
    }
  }

  lemma SplitAfterFirst(s: string, n: nat, m: nat)
    requires 0 < n && n + m <= |s|
    ensures s[1..][n - 1 + m..] == s[n + m..]
    ensures [s[0]] + s[1..][..n - 1] == s[..n]
  {
  }

  lemma AppendAfterFirst(c: char, x: string, y: string, z: string)
    ensures [c] + (x + y + z) == [c] + x + y + z
  {
  }

  /** Dropping the first character moves every occurrence one place to the left. */
  lemma ShiftOccurrences(s: string, pattern: string, n: nat)
    requires 0 < n && n + |pattern| <= |s| && StartsWith(s[n..], pattern)
    requires forall k {:trigger StartsWith(s[k..], pattern)} :: 0 <= k < n ==> !StartsWith(s[k..], pattern)
    ensures !StartsWith(s, pattern)
    ensures StartsWith(s[1..][n - 1..], pattern)
    ensures forall k :: 0 <= k < n - 1 ==> !StartsWith(s[1..][k..], pattern)
  {
    assert s[0..] == s;
    assert s[1..][n - 1..] == s[n..];
    forall k | 0 <= k < n - 1 ensures !StartsWith(s[1..][k..], pattern) {
      assert s[1..][k..] == s[k + 1..];
    }
  }

  /** One pass of the loop body: `if f"%{i}" in text: text = text.replace(f"%{i}", name)`. */
  function Step(text: string, i: nat, name: string): string
  {
    if Contains(text, Placeholder(i)) then Replace(text, Placeholder(i), name) else text
  }

  /** A pass leaves a text without `%` alone. */
  lemma StepWithoutPercent(text: string, i: nat, name: string)
    requires '%' !in text
    ensures Step(text, i, name) == text
  {
    NotContainedWithoutFirstChar(text, Placeholder(i));
  }

  /** A pass on the placeholder alone gives the name. */
  lemma PlaceholderAloneBecomesName(i: nat, name: string)
    ensures Step(Placeholder(i), i, name) == name
  {
    ContainsAt(Placeholder(i), Placeholder(i), 0);
  }

  /**
   * How many passes the loop makes: it stops when the current path's parent
   * is `/` or when `i` reaches 50. For an absolute path that leaves out the
   * top-level directory; a relative path never reaches `/`, so it always
   * makes 50 passes.
   */
  function StepCount(p: Path): (n: nat)
    ensures n <= MaxSteps
    ensures p.absolute ==> n + 1 <= |p.parts| || n == 0
    ensures !p.absolute ==> n == MaxSteps
  {
    if !p.absolute then MaxSteps
    else if |p.parts| <= 1 then 0
    else Min(|p.parts| - 1, MaxSteps)
  }

  /** The name `%i` stands for: the `i`-th path up, `""` once `.` or `/` is reached. */
  function AncestorName(p: Path, i: nat): string
  {
    if i < |p.parts| then p.parts[|p.parts| - 1 - i] else ""
  }

  /** The format after placeholders `%0` to `%(k-1)` have been substituted, in that order. */
  function SubstituteFirst(format: string, p: Path, k: nat): string
  {
    if k == 0 then format else Step(SubstituteFirst(format, p, k - 1), k - 1, AncestorName(p, k - 1))
  }

  /** The loop body: replace `%i` by the name when the text holds it. */
  method Pass(text: string, i: nat, name: string) returns (result: string)
    ensures result == Step(text, i, name)
  {
    result := text;
    if Contains(text, Placeholder(i)) {
      result := Replace(text, Placeholder(i), name);
    }
  }

  /** The substitution loop of `main_thread`: `text`, `i` and `current` change together. */
  method FormatCaption(format: string, path: Path) returns (text: string)
    ensures text == SubstituteFirst(format, path, StepCount(path))
  {
    text := format;
    var current := path;
    var i: nat := 0;
    while Parent(current) != Root && i != MaxSteps
      invariant i <= StepCount(path)
      invariant current == Ancestor(path, i)
      invariant text == SubstituteFirst(format, path, i)
      decreases MaxSteps - i
    {
      ghost var before := text;
      text := Pass(text, i, Name(current));
      assert i + 1 <= StepCount(path) && text == SubstituteFirst(format, path, i + 1) by {
        StopsAtStepCount(path, i);
      }
      i := i + 1;
      current := Parent(current);
    }
    StopsAtStepCount(path, i);
  }

  /**
   * At pass `i` the loop looks at the `i`-th ancestor, whose name is
   * AncestorName; it goes on exactly while `i` is below StepCount.
   */
  lemma StopsAtStepCount(p: Path, i: nat)
    requires i <= StepCount(p)
    ensures Name(Ancestor(p, i)) == AncestorName(p, i)
    ensures (Parent(Ancestor(p, i)) != Root && i != MaxSteps) <==> i < StepCount(p)
  {
  }

  /** A format without `%` comes out unchanged, whatever the path. */
  lemma {:induction false} NoPlaceholderUnchanged(format: string, p: Path, k: nat)
    requires '%' !in format
    ensures SubstituteFirst(format, p, k) == format
  {
    if k > 0 {
      NoPlaceholderUnchanged(format, p, k - 1);
      NotContainedWithoutFirstChar(format, Placeholder(k - 1));
    }
  }

  lemma {:induction false} NotContainedWithoutFirstChar(s: string, sub: string)
    requires |sub| > 0 && sub[0] !in s
    ensures !Contains(s, sub)
  {
    if |s| > 0 {
      assert sub[0] !in s[1..];
      NotContainedWithoutFirstChar(s[1..], sub);
    }
  }

  /** A file directly under `/` (or `/` itself) gets no substitution at all. */
  lemma TopLevelFileUnchanged(format: string, name: seq<string>)
    requires |name| <= 1
    ensures SubstituteFirst(format, Path(true, name), StepCount(Path(true, name))) == format
  {
  }

  /**
   * The top-level directory under `/` is never substituted: every pass of an
   * absolute path uses a component after the first.
   */
  lemma TopLevelDirectoryNeverUsed(p: Path, i: nat)
    requires p.absolute && i < StepCount(p)
    ensures AncestorName(p, i) == p.parts[|p.parts| - 1 - i] && |p.parts| - 1 - i >= 1
  {
  }

  /** An occurrence at any offset makes `sub in s` true. */
  lemma {:induction false} ContainsAt(s: string, sub: string, k: nat)
    requires k <= |s| && StartsWith(s[k..], sub)
    ensures Contains(s, sub)
  {
    if k > 0 {
      assert s[1..][k - 1..] == s[k..];
      ContainsAt(s[1..], sub, k - 1);
    }
  }

  /** `%1/%0` under `/photos/2023/beach.jpg` reads `2023/beach.jpg`. */
  lemma FolderAndFileExample()
    ensures SubstituteFirst("%1/%0", Path(true, ["photos", "2023", "beach.jpg"]), 2) == "2023/beach.jpg"
  {
    var p := Path(true, ["photos", "2023", "beach.jpg"]);
    var t := "%1/beach.jpg";
    assert AncestorName(p, 0) == "beach.jpg" && AncestorName(p, 1) == "2023";
    FirstPassExample();
    assert SubstituteFirst("%1/%0", p, 1) == t;
    SecondPassExample();
  }

  lemma FirstPassExample()
    ensures Step("%1/%0", 0, "beach.jpg") == "%1/beach.jpg"
  {
    var s := "%1/%0";
    assert Placeholder(0) == "%0";
    assert s[3..] == "%0";
    ContainsAt(s, "%0", 3);
    assert Replace("/%0", "%0", "beach.jpg") == "/beach.jpg" by {
      assert "/%0"[1..] == "%0";
    }
    assert Replace("1/%0", "%0", "beach.jpg") == "1/beach.jpg" by {
      assert "1/%0"[1..] == "/%0";
    }
    assert s[1..] == "1/%0";
  }

  lemma SecondPassExample()
    ensures Step("%1/beach.jpg", 1, "2023") == "2023/beach.jpg"
  {
    var t := "%1/beach.jpg";
    assert Placeholder(1) == "%1";
    assert t[..2] == "%1";
    assert !Contains(t[2..], "%1") by {
      NotContainedWithoutFirstChar(t[2..], "%1");
    }
  }

  /**
   * `%10` is rewritten at pass 1, as `%1` followed by `0`: under
   * `/photos/2023/beach.jpg` it reads `20230`.
   */
  lemma PercentTenExample()
    ensures SubstituteFirst("%10", Path(true, ["photos", "2023", "beach.jpg"]), 2) == "20230"
  {
    assert Placeholder(0) == "%0" && Placeholder(1) == "%1";
    assert !Contains("%10", "%0") by {
      assert "%10"[1..] == "10";
      NotContainedWithoutFirstChar("10", "%0");
    }
    assert Replace("%10", "%1", "2023") == "20230" by {
      assert "%10"[2..] == "0";
    }
  }
}
