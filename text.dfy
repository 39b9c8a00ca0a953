/**
 * String helpers shared by the generator scripts: the pieces of Rust's `str`,
 * Python's `str` and Go's `fmt` that the scripts use, on `string == seq<char>`.
 */
module Text {
  import opened Wrappers

  predicate StartsWith(s: string, prefix: string) {
    |prefix| <= |s| && s[..|prefix|] == prefix
  }

  predicate EndsWith(s: string, suffix: string) {
    |suffix| <= |s| && s[|s| - |suffix|..] == suffix
  }

  /** Substring test: Rust's `str::contains`, Python's `sub in s`. */
  predicate Contains(s: string, sub: string)
    decreases |s|
  {
    StartsWith(s, sub) || (|s| > 0 && Contains(s[1..], sub))
  }

  lemma {:induction false} ContainsAt(s: string, sub: string, i: nat)
    requires i + |sub| <= |s| && s[i..i + |sub|] == sub
    ensures Contains(s, sub)
    decreases i
  {
    if i > 0 {
      assert s[1..][i - 1..i - 1 + |sub|] == s[i..i + |sub|];
      ContainsAt(s[1..], sub, i - 1);
    }
  }

  lemma {:induction false} ContainsWitness(s: string, sub: string) returns (i: nat)
    requires Contains(s, sub)
    ensures i + |sub| <= |s| && s[i..i + |sub|] == sub
    decreases |s|
  {
    if StartsWith(s, sub) {
      i := 0;
    } else {
      var j := ContainsWitness(s[1..], sub);
      assert s[1..][j..j + |sub|] == s[j + 1..j + 1 + |sub|];
      i := j + 1;
    }
  }

  /** A substring of a substring is a substring. */
  lemma ContainsTrans(a: string, b: string, c: string)
    requires Contains(a, b) && Contains(b, c)
    ensures Contains(a, c)
  {
    var i := ContainsWitness(a, b);
    var j := ContainsWitness(b, c);
    forall t | 0 <= t < |c|
      ensures a[i + j + t] == c[t]
    {
      assert c[t] == b[j + t];
      assert b[j + t] == a[i..i + |b|][j + t];
    }
    assert a[i + j..i + j + |c|] == c;
    ContainsAt(a, c, i + j);
  }

  /** `parts.join(sep)` in Rust, `sep.join(parts)` in Python. */
  function Join(parts: seq<string>, sep: string): string
  {
    if |parts| == 0 then ""
    else if |parts| == 1 then parts[0]
    else parts[0] + sep + Join(parts[1..], sep)
  }

  /** Joining two non-empty lists: the two joins with one separator between them. */
  lemma {:induction false} JoinAppend(a: seq<string>, b: seq<string>, sep: string)
    requires |a| >= 1 && |b| >= 1
    ensures Join(a + b, sep) == Join(a, sep) + sep + Join(b, sep)
    decreases |a|
  {
    if |a| > 1 {
      assert (a + b)[1..] == a[1..] + b;
      JoinAppend(a[1..], b, sep);
    } else {
      assert (a + b)[1..] == b;
    }
  }

  /** A substring of either half is a substring of the concatenation. */
  lemma ContainsConcat(a: string, b: string, sub: string)
    requires Contains(a, sub) || Contains(b, sub)
    ensures Contains(a + b, sub)
  {
    if Contains(a, sub) {
      var i := ContainsWitness(a, sub);
      assert (a + b)[i..i + |sub|] == a[i..i + |sub|];
      ContainsAt(a + b, sub, i);
    } else {
      var i := ContainsWitness(b, sub);
      assert (a + b)[|a| + i..|a| + i + |sub|] == b[i..i + |sub|];
      ContainsAt(a + b, sub, |a| + i);
    }
  }

  /** Each part followed by `term`: a loop of `printf("%s<term>", part)`. */
  function Terminated(parts: seq<string>, term: string): string
  {
    if parts == [] then "" else parts[0] + term + Terminated(parts[1..], term)
  }

  /** One more iteration of such a loop appends one more part and terminator. */
  lemma {:induction false} TerminatedSnoc(parts: seq<string>, p: string, term: string)
    ensures Terminated(parts + [p], term) == Terminated(parts, term) + p + term
    decreases |parts|
  {
    if parts == [] {
      assert [p][1..] == [];
    } else {
      assert (parts + [p])[1..] == parts[1..] + [p];
      TerminatedSnoc(parts[1..], p, term);
    }
  }

  /**
   * A join is the terminated list of all parts but the last, then the last:
   * how C prints a separated list with one loop and one final `printf`.
   */
  lemma {:induction false} JoinAsTerminated(parts: seq<string>, sep: string)
    requires |parts| >= 1
    ensures Join(parts, sep) == Terminated(parts[..|parts| - 1], sep) + parts[|parts| - 1]
    decreases |parts|
  {
    if |parts| == 1 {
      assert parts[..0] == [];
    } else {
      var rest := parts[1..];
      JoinAsTerminated(rest, sep);
      assert parts[..|parts| - 1] == [parts[0]] + rest[..|rest| - 1];
      assert ([parts[0]] + rest[..|rest| - 1])[1..] == rest[..|rest| - 1];
    }
  }

  /** Index of the first `c` in `s`, or `|s|` when there is none. */
  function IndexOf(s: string, c: char): (i: nat)
    ensures i <= |s|
    ensures i < |s| ==> s[i] == c
    ensures forall j :: 0 <= j < i ==> s[j] != c
  {
    if s == [] then 0
    else if s[0] == c then 0
    else 1 + IndexOf(s[1..], c)
  }

  /** Index of the last `c` in `s`, or -1 when there is none. */
  function LastIndexOf(s: string, c: char): (i: int)
    ensures -1 <= i < |s|
    ensures i >= 0 ==> s[i] == c
  {
    if s == [] then -1
    else if s[|s| - 1] == c then |s| - 1
    else LastIndexOf(s[..|s| - 1], c)
  }

  /** No `c` follows the one `LastIndexOf` finds. */
  lemma {:induction false} LastIndexOfIsLast(s: string, c: char)
    ensures forall j :: LastIndexOf(s, c) < j < |s| ==> s[j] != c
    decreases |s|
  {
    if s != [] && s[|s| - 1] != c {
      var init := s[..|s| - 1];
      LastIndexOfIsLast(init, c);
      assert forall j :: LastIndexOf(s, c) < j < |init| ==> s[j] == init[j];
    }
  }

  /**
   * Splitting at every occurrence of one character, keeping empty pieces:
   * Rust's `str::split(c)` and Python's `str.split(c)`.
   */
  function SplitOn(s: string, c: char): (parts: seq<string>)
    ensures |parts| >= 1
    ensures forall k :: 0 <= k < |parts| ==> c !in parts[k]
    decreases |s|
  {
    var i := IndexOf(s, c);
    if i == |s| then [s]
    else [s[..i]] + SplitOn(s[i + 1..], c)
  }

  /** One more piece: the text before the first `c`, then the split of the rest. */
  lemma SplitOnStep(s: string, c: char)
    requires IndexOf(s, c) < |s|
    ensures SplitOn(s, c) == [s[..IndexOf(s, c)]] + SplitOn(s[IndexOf(s, c) + 1..], c)
  {
  }

  lemma JoinCons(p: string, rest: seq<string>, sep: string)
    requires |rest| >= 1
    ensures Join([p] + rest, sep) == p + sep + Join(rest, sep)
  {
    assert ([p] + rest)[1..] == rest;
  }

  /** Joining the pieces of a split with the separator gives back the string. */
  lemma {:induction false} JoinSplitOn(s: string, c: char)
    ensures Join(SplitOn(s, c), [c]) == s
    decreases |s|
  {
    var i := IndexOf(s, c);
    if i < |s| {
      var rest := SplitOn(s[i + 1..], c);
      SplitOnStep(s, c);
      JoinSplitOn(s[i + 1..], c);
      JoinCons(s[..i], rest, [c]);
      Recombine(s, i);
    }
  }

  lemma Recombine<T>(s: seq<T>, i: nat)
    requires i < |s|
    ensures s[..i] + [s[i]] + s[i + 1..] == s
  {
  }

  lemma {:induction false} IndexOfAfter(p: string, c: char, t: string)
    requires c !in p
    ensures IndexOf(p + [c] + t, c) == |p|
    decreases |p|
  {
    if p != [] {
      assert (p + [c] + t)[1..] == p[1..] + [c] + t;
      IndexOfAfter(p[1..], c, t);
    }
  }

  /** Splitting a join of separator-free pieces gives back the pieces. */
  lemma {:induction false} SplitOnJoin(parts: seq<string>, c: char)
    requires |parts| >= 1
    requires forall k :: 0 <= k < |parts| ==> c !in parts[k]
    ensures SplitOn(Join(parts, [c]), c) == parts
    decreases |parts|
  {
    if |parts| == 1 {
      assert IndexOf(parts[0], c) == |parts[0]|;
    } else {
      var p, rest := parts[0], parts[1..];
      var s := Join(parts, [c]);
      assert s == p + [c] + Join(rest, [c]);
      IndexOfAfter(p, c, Join(rest, [c]));
      assert s[..|p|] == p;
      assert s[|p| + 1..] == Join(rest, [c]);
      SplitOnJoin(rest, c);
      assert parts == [p] + rest;
    }
  }

  /** A string without `c` is one piece. */
  lemma SplitOnFree(s: string, c: char)
    requires c !in s
    ensures SplitOn(s, c) == [s]
  {
    assert IndexOf(s, c) == |s|;
  }

  lemma {:induction false} IndexOfExtend(s: string, c: char, t: string)
    requires IndexOf(s, c) < |s|
    ensures IndexOf(s + t, c) == IndexOf(s, c)
    decreases |s|
  {
    if s[0] != c {
      assert (s + t)[1..] == s[1..] + t;
      IndexOfExtend(s[1..], c, t);
    }
  }

  /** Splitting at a separator splits the two sides independently. */
  lemma {:induction false} SplitOnConcat(a: string, c: char, b: string)
    ensures SplitOn(a + [c] + b, c) == SplitOn(a, c) + SplitOn(b, c)
    decreases |a|, 1
  {
    if IndexOf(a, c) == |a| {
      SplitOnConcatFree(a, c, b);
    } else {
      SplitOnConcatFound(a, c, b);
    }
  }

  lemma SplitOnConcatFree(a: string, c: char, b: string)
    requires IndexOf(a, c) == |a|
    ensures SplitOn(a + [c] + b, c) == SplitOn(a, c) + SplitOn(b, c)
  {
    var s := a + [c] + b;
    IndexOfAfter(a, c, b);
    SplitOnStep(s, c);
    assert s[..|a|] == a && s[|a| + 1..] == b;
  }

  lemma {:induction false} SplitOnConcatFound(a: string, c: char, b: string)
    requires IndexOf(a, c) < |a|
    ensures SplitOn(a + [c] + b, c) == SplitOn(a, c) + SplitOn(b, c)
    decreases |a|, 0
  {
    var i := IndexOf(a, c);
    var x, a' := a[..i], a[i + 1..];
    SplitFirstOfConcat(a, c, b);
    SplitOnStep(a, c);
    SplitOnConcat(a', c, b);
    AppendAssoc([x], SplitOn(a', c), SplitOn(b, c));
  }

  lemma SplitFirstOfConcat(a: string, c: char, b: string)
    requires IndexOf(a, c) < |a|
    ensures SplitOn(a + [c] + b, c) == [a[..IndexOf(a, c)]] + SplitOn(a[IndexOf(a, c) + 1..] + [c] + b, c)
  {
    var i := IndexOf(a, c);
    var t := [c] + b;
    var u := a + t;
    PrefixSplit(a, c, i, t);
    AppendAssoc(a, [c], b);
    assert u[i + 1..] == a[i + 1..] + t;
    AppendAssoc(a[i + 1..], [c], b);
  }

  lemma AppendAssoc<T>(x: seq<T>, y: seq<T>, z: seq<T>)
    ensures x + (y + z) == (x + y) + z
  {
  }

  /** Text after the first separator does not change where a split starts. */
  lemma PrefixSplit(a: string, c: char, i: nat, t: string)
    requires i == IndexOf(a, c) < |a|
    ensures SplitOn(a + t, c) == [a[..i]] + SplitOn((a + t)[i + 1..], c)
  {
    IndexOfExtend(a, c, t);
    assert (a + t)[..i] == a[..i];
  }

  /** Newline-terminated lines split back into the lines and one empty tail. */
  lemma {:induction false} SplitOnTerminated(lines: seq<string>, c: char)
    requires forall k :: 0 <= k < |lines| ==> c !in lines[k]
    ensures SplitOn(Terminated(lines, [c]), c) == lines + [""]
    decreases |lines|
  {
    if lines == [] {
      assert SplitOn("", c) == [""];
    } else {
      var rest := lines[1..];
      assert forall k :: 0 <= k < |rest| ==> c !in rest[k] by {
        forall k | 0 <= k < |rest| ensures c !in rest[k] {
          assert rest[k] == lines[k + 1];
        }
      }
      SplitOnTerminated(rest, c);
      SplitOnTerminatedCons(lines[0], rest, c);
      assert lines == [lines[0]] + rest;
    }
  }

  lemma SplitOnTerminatedCons(line: string, rest: seq<string>, c: char)
    requires c !in line
    requires SplitOn(Terminated(rest, [c]), c) == rest + [""]
    ensures SplitOn(Terminated([line] + rest, [c]), c) == [line] + rest + [""]
  {
    var t := Terminated(rest, [c]);
    assert ([line] + rest)[1..] == rest;
    assert Terminated([line] + rest, [c]) == line + [c] + t;
    SplitOnConcat(line, c, t);
    SplitOnFree(line, c);
    AppendAssoc([line], rest, [""]);
  }

  /** The last piece of `s.split(c)` in Python: the text after the last `c`, or all of `s`. */
  function AfterLast(s: string, c: char): string
  {
    var parts := SplitOn(s, c);
    parts[|parts| - 1]
  }

  /**
   * Rust's `str::lines`: pieces ended by "\n" (with a "\r" before it dropped);
   * a final "\n" does not start an empty last line.
   */
  function Lines(s: string): seq<string>
    decreases |s|
  {
    if s == [] then []
    else
      var i := IndexOf(s, '\n');
      if i == |s| then [s]
      else [TrimCarriageReturn(s[..i])] + Lines(s[i + 1..])
  }

  function TrimCarriageReturn(line: string): string
  {
    if |line| > 0 && line[|line| - 1] == '\r' then line[..|line| - 1] else line
  }

  /** Rust's `str::trim_end_matches(suffix)`: removes the suffix as often as it ends the string. */
  function TrimEndMatches(s: string, suffix: string): (r: string)
    requires |suffix| > 0
    ensures !EndsWith(r, suffix)
    ensures |r| <= |s| && r == s[..|r|]
    decreases |s|
  {
    if EndsWith(s, suffix) then TrimEndMatches(s[..|s| - |suffix|], suffix) else s
  }

  lemma TrimEndMatchesOnce(x: string, suffix: string)
    requires |suffix| > 0 && !EndsWith(x, suffix)
    ensures TrimEndMatches(x + suffix, suffix) == x
  {
    var s := x + suffix;
    assert s[|s| - |suffix|..] == suffix;
    assert s[..|s| - |suffix|] == x;
  }

  /**
   * Rust's `Path::extension` on a file name: the text after the last '.',
   * none when there is no '.', when the only '.' begins the name, or for "..".
   */
  function RustExtension(name: string): (ext: Option<string>)
    ensures ext.Some? ==> EndsWith(name, "." + ext.value)
    ensures ext.None? ==> name == ".." || LastIndexOf(name, '.') <= 0
  {
    if name == ".." then None
    else
      var i := LastIndexOf(name, '.');
      if i <= 0 then None
      else
        assert name[|name| - |"." + name[i + 1..]|..] == "." + name[i + 1..];
        Some(name[i + 1..])
  }

  /** The extension is everything after the last '.', so it holds no '.'. */
  lemma RustExtensionNoDot(name: string)
    requires RustExtension(name).Some?
    ensures '.' !in RustExtension(name).value
  {
    var i := LastIndexOf(name, '.');
    LastIndexOfIsLast(name, '.');
    var ext := name[i + 1..];
    forall j | 0 <= j < |ext|
      ensures ext[j] != '.'
    {
      assert ext[j] == name[i + 1 + j];
    }
  }

  predicate IsDigit(ch: char) {
    '0' <= ch <= '9'
  }

  predicate AllDigits(s: string) {
    forall k :: 0 <= k < |s| ==> IsDigit(s[k])
  }

  function DigitChar(d: nat): (ch: char)
    requires d < 10
    ensures IsDigit(ch)
  {
    ('0' as int + d) as char
  }

  function DigitValue(ch: char): (d: nat)
    requires IsDigit(ch)
    ensures d < 10 && DigitChar(d) == ch
  {
    ch as int - '0' as int
  }

  /** Decimal text of a natural number, as `%d`, `str(n)` or `format!("{}")` print it. */
  function NatToString(n: nat): (s: string)
    ensures |s| >= 1 && AllDigits(s)
    decreases n
  {
    if n < 10 then [DigitChar(n)] else NatToString(n / 10) + [DigitChar(n % 10)]
  }

  function IntToString(i: int): string
  {
    if i < 0 then "-" + NatToString(-i) else NatToString(i)
  }

  /** The decimal text of each number, as `%d` prints it. */
  function Decimals(xs: seq<int>): (r: seq<string>)
    ensures |r| == |xs|
  {
    seq(|xs|, k requires 0 <= k < |xs| => IntToString(xs[k]))
  }

  /** Printing one more number of `xs` in a terminated list. */
  lemma TerminatedDecimalsSnoc(xs: seq<int>, i: nat, term: string)
    requires i < |xs|
    ensures Terminated(Decimals(xs[..i + 1]), term) == Terminated(Decimals(xs[..i]), term) + IntToString(xs[i]) + term
  {
    assert Decimals(xs[..i + 1]) == Decimals(xs[..i]) + [IntToString(xs[i])];
    TerminatedSnoc(Decimals(xs[..i]), IntToString(xs[i]), term);
  }

  /** Value of a string of decimal digits; leading zeros are allowed. */
  function ParseDecimal(s: string): nat
    requires AllDigits(s)
    decreases |s|
  {
    if s == [] then 0 else ParseDecimal(s[..|s| - 1]) * 10 + DigitValue(s[|s| - 1])
  }

  /** Reading back the decimal text of `n` gives `n`. */
  lemma {:induction false} ParseNatToString(n: nat)
    ensures ParseDecimal(NatToString(n)) == n
    decreases n
  {
    var s := NatToString(n);
    if n < 10 {
      assert s[..0] == [];
    } else {
      ParseNatToString(n / 10);
      assert s[..|s| - 1] == NatToString(n / 10);
    }
  }

  /** A leading zero does not change the value of a decimal string. */
  lemma {:induction false} ParseLeadingZero(s: string)
    requires AllDigits(s)
    ensures AllDigits("0" + s) && ParseDecimal("0" + s) == ParseDecimal(s)
    decreases |s|
  {
    var z := "0" + s;
    if s == [] {
      assert z[..0] == [];
    } else {
      assert z[..|z| - 1] == "0" + s[..|s| - 1];
      ParseLeadingZero(s[..|s| - 1]);
    }
  }

  function LowerChar(ch: char): char
  {
    if 'A' <= ch <= 'Z' then (ch as int + 32) as char else ch
  }

  /** Python's `str.lower()` on ASCII letters. */
  function Lower(s: string): (r: string)
    ensures |r| == |s|
  {
    seq(|s|, k requires 0 <= k < |s| => LowerChar(s[k]))
  }

  /** Lexicographic order on code points: Rust's `Ord for String`, Python's `<=` on `str`. */
  predicate LexLe(a: string, b: string)
    decreases |a|
  {
    |a| == 0 || (|b| > 0 && (a[0] < b[0] || (a[0] == b[0] && LexLe(a[1..], b[1..]))))
  }

  lemma {:induction false} LexLeTotal(a: string, b: string)
    ensures LexLe(a, b) || LexLe(b, a)
    decreases |a|
  {
    if |a| > 0 && |b| > 0 && a[0] == b[0] {
      LexLeTotal(a[1..], b[1..]);
    }
  }

  lemma {:induction false} LexLeTransitive(a: string, b: string, c: string)
    requires LexLe(a, b) && LexLe(b, c)
    ensures LexLe(a, c)
    decreases |a|
  {
    if |a| > 0 && a[0] == b[0] && b[0] == c[0] {
      LexLeTransitive(a[1..], b[1..], c[1..]);
    }
  }

  lemma {:induction false} LexLeAntisymmetric(a: string, b: string)
    requires LexLe(a, b) && LexLe(b, a)
    ensures a == b
    decreases |a|
  {
    if |a| > 0 {
      LexLeAntisymmetric(a[1..], b[1..]);
      assert a == [a[0]] + a[1..] && b == [b[0]] + b[1..];
    }
  }
}
