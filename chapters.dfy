/**
 * What readme.py and readme.go share: the chapter directory names `chNN`,
 * the chapter titles, the Markdown link written for each chapter, the loop
 * over chapters 1 to 9, and the numeric key both Python scripts sort the
 * chapter directories by.
 */
module Chapters {
  import opened Text

  /** `f"0{n}" if n < 10 else str(n)`: the chapter number, zero-padded to two digits. */
  function Pad(n: nat): (c: string)
    ensures AllDigits(c) && ParseDecimal(c) == n
    ensures |c| >= 2
  {
    ParseNatToString(n);
    if n < 10 then
      ParseLeadingZero(NatToString(n));
      "0" + NatToString(n)
    else
      assert |NatToString(n)| >= 2 by { assert NatToString(n) == NatToString(n / 10) + [DigitChar(n % 10)]; }
      NatToString(n)
  }

  /** The directory `if_exists` looks for: `ch0{n}` below 10, `ch{n}` from 10 on. */
  function DirName(n: nat): string {
    if n < 10 then "ch0" + NatToString(n) else "ch" + NatToString(n)
  }

  lemma DirNameIsPadded(n: nat)
    ensures DirName(n) == "ch" + Pad(n)
  {
  }

  /** The repository's tree URL that the chapter links point into. */
  const TREE_URL := "https://github.com/MKProj/ZigUnleashed/tree/main"

  /** The start of chapter `n`'s line: a list bullet and the label `[Chapter NN: `. */
  function Head(n: nat): string {
    "- [Chapter " + Pad(n) + ": "
  }

  /** The end of chapter `n`'s line before its newline: the directory in the link, then two spaces. */
  function Tail(n: nat): string {
    "/" + DirName(n) + ")  "
  }

  /** `format(chapter, n)` without its final newline. */
  function Line(chapter: string, n: nat): string {
    Head(n) + (chapter + "](" + TREE_URL) + Tail(n)
  }

  /**
   * `format(chapter, n)`: one Markdown list item whose label carries the
   * zero-padded number and whose link ends in the directory `if_exists`
   * checks, ended by two spaces (a Markdown line break) and a newline.
   */
  function Format(chapter: string, n: nat): (r: string)
    ensures StartsWith(r, Head(n))
    ensures EndsWith(r, Tail(n) + "\n")
  {
    var r := Line(chapter, n) + "\n";
    assert r == Head(n) + (chapter + "](" + TREE_URL) + (Tail(n) + "\n");
    Framed(Head(n), chapter + "](" + TREE_URL, Tail(n) + "\n");
    r
  }

  lemma Framed(a: string, b: string, c: string)
    ensures StartsWith(a + b + c, a) && EndsWith(a + b + c, c)
  {
    assert (a + b + c)[..|a|] == a;
    assert (a + b + c)[|a| + |b|..] == c;
  }

  /** The label and the link of a chapter's line carry the same two digits, which read back as `n`. */
  lemma FormatNumber(chapter: string, n: nat)
    ensures Head(n) == "- [Chapter " + Pad(n) + ": " && Tail(n) == "/ch" + Pad(n) + ")  "
    ensures |Pad(n)| >= 2 && AllDigits(Pad(n)) && ParseDecimal(Pad(n)) == n
  {
    DirNameIsPadded(n);
  }

  /** `chapters_map` of readme.py and `chaptersMap` of readme.go; `""` for any other number, as `.get(n, "")` and Go's zero value give. */
  function Title(n: int): string {
    match n
    case 1 => "Introduction"
    case 2 => "The Basics"
    case 3 => "Functions"
    case 4 => "Arrays and Slices"
    case 5 => "Struct, Enums and Unions"
    case 6 => "Pointers and Memory Management"
    case 7 => "Error Handling"
    case 8 => "Interfacing with C"
    case 9 => "Advance Topics"
    case _ => ""
  }

  /** Exactly chapters 1 to 9 have a title. */
  lemma TitlesDefined(n: int)
    ensures Title(n) != "" <==> 1 <= n <= 9
  {
  }

  /** The outcome of asking the file system about a path. */
  datatype StatResult = Exists | NotExist | OtherError

  /** Python's `os.path.exists`: false on every error. */
  predicate PyExists(s: StatResult) {
    s == Exists
  }

  /** readme.go's `if_exists`: false only when the error is "does not exist". */
  predicate GoExists(s: StatResult) {
    s != NotExist
  }

  /** The two existence tests disagree exactly on errors other than "does not exist". */
  lemma ExistsDiffer(s: StatResult)
    ensures PyExists(s) ==> GoExists(s)
    ensures PyExists(s) != GoExists(s) <==> s == OtherError
  {
  }

  /** readme.py's `if_exists` as a test on directory names: `os.path.exists`. */
  function PathExists(stat: string -> StatResult): string -> bool {
    d => PyExists(stat(d))
  }

  /** readme.go's `if_exists` as a test on directory names: not a "does not exist" error. */
  function StatExists(stat: string -> StatResult): string -> bool {
    d => GoExists(stat(d))
  }

  /** The chapters below `hi` whose directory exists, in ascending order. */
  function PresentBelow(present: string -> bool, hi: nat): (ns: seq<nat>)
    ensures forall n :: n in ns <==> 1 <= n < hi && present(DirName(n))
    ensures forall i, j :: 0 <= i < j < |ns| ==> ns[i] < ns[j]
    decreases hi
  {
    if hi <= 1 then []
    else
      var below := PresentBelow(present, hi - 1);
      assert forall i :: 0 <= i < |below| ==> below[i] in below;
      if present(DirName(hi - 1)) then below + [hi - 1] else below
  }

  /** The link lines of the given chapters, in the same order. */
  function LinkLines(ns: seq<nat>): (lines: seq<string>)
    ensures |lines| == |ns|
  {
    seq(|ns|, k requires 0 <= k < |ns| => Line(Title(ns[k]), ns[k]))
  }

  lemma LinkLinesSnoc(ns: seq<nat>, n: nat)
    ensures LinkLines(ns + [n]) == LinkLines(ns) + [Line(Title(n), n)]
  {
  }

  /**
   * The chapter loop `for n in 1..9: if if_exists(n): write(format(chapters_map[n], n))`
   * with the existence test as a parameter: the text holds one link line per
   * existing chapter directory, in ascending chapter order.
   */
  method WriteLinks(present: string -> bool) returns (text: string)
    ensures text == Terminated(LinkLines(PresentBelow(present, 10)), "\n")
  {
    text := "";
    var n := 1;
    while n < 10
      invariant 1 <= n <= 10
      invariant text == Terminated(LinkLines(PresentBelow(present, n)), "\n")
    {
      if present(DirName(n)) {
        ChapterLinkStep(present, n);
        text := text + Format(Title(n), n);
      }
      n := n + 1;
    }
  }

  lemma ChapterLinkStep(present: string -> bool, n: nat)
    requires 1 <= n && present(DirName(n))
    ensures Terminated(LinkLines(PresentBelow(present, n + 1)), "\n")
         == Terminated(LinkLines(PresentBelow(present, n)), "\n") + Format(Title(n), n)
  {
    var below := PresentBelow(present, n);
    assert PresentBelow(present, n + 1) == below + [n];
    LinkLinesSnoc(below, n);
    TerminatedSnoc(LinkLines(below), Line(Title(n), n), "\n");
    AppendAssoc(Terminated(LinkLines(below), "\n"), Line(Title(n), n), "\n");
  }

  /** Two existence tests that agree on every chapter directory give the same chapter list. */
  lemma {:induction false} PresentAgree(e1: string -> bool, e2: string -> bool, hi: nat)
    requires forall n: nat :: 1 <= n < hi ==> e1(DirName(n)) == e2(DirName(n))
    ensures PresentBelow(e1, hi) == PresentBelow(e2, hi)
    decreases hi
  {
    if hi > 1 {
      PresentAgree(e1, e2, hi - 1);
    }
  }

  /** The number a reader takes from the last path segment of a chapter's link is the chapter's own number. */
  lemma LinkNamesChapter(chapter: string, n: nat)
    ensures ChKey(AfterLast(Format(chapter, n), '/')) == n
  {
    LastSegmentOfFormat(chapter, n);
    ChKeyOfDirNameThen(n, ")  \n");
  }

  lemma LastSegmentOfFormat(chapter: string, n: nat)
    ensures AfterLast(Format(chapter, n), '/') == DirName(n) + ")  \n"
  {
    var front := Head(n) + (chapter + "](" + TREE_URL);
    var rest := DirName(n) + ")  \n";
    TailNewline(n);
    assert Format(chapter, n) == front + (['/'] + rest);
    AppendAssoc(front, ['/'], rest);
    DirNameSlashFree(n);
    AfterLastOfTail(front, '/', rest);
  }

  lemma TailNewline(n: nat)
    ensures Tail(n) + "\n" == ['/'] + (DirName(n) + ")  \n")
  {
  }

  /** The text after the last separator is what follows a separator when no other comes after it. */
  lemma AfterLastOfTail(front: string, c: char, rest: string)
    requires c !in rest
    ensures AfterLast(front + [c] + rest, c) == rest
  {
    SplitOnConcat(front, c, rest);
    SplitOnFree(rest, c);
  }

  lemma DirNameSlashFree(n: nat)
    ensures '/' !in DirName(n) + ")  \n"
  {
    DirNameIsPadded(n);
    assert forall k :: 0 <= k < |Pad(n)| ==> IsDigit(Pad(n)[k]);
  }

  lemma ChKeyOfDirNameThen(n: nat, t: string)
    requires t == [] || !IsDigit(t[0])
    ensures ChKey(DirName(n) + t) == n
  {
    DirNameIsPadded(n);
    var s := DirName(n) + t;
    assert s == "ch" + (Pad(n) + t);
    assert s[2..] == Pad(n) + t;
    LeadingDigitsStop(Pad(n), t);
  }

  lemma {:induction false} LeadingDigitsStop(d: string, t: string)
    requires AllDigits(d) && (t == [] || !IsDigit(t[0]))
    ensures LeadingDigits(d + t) == d
  {
    if d != [] {
      assert (d + t)[1..] == d[1..] + t;
      LeadingDigitsStop(d[1..], t);
    }
  }

  /**
   * On the same file system readme.go lists every chapter readme.py lists,
   * and the two lists are the same unless stat fails on a chapter directory
   * with an error other than "does not exist".
   */
  lemma ListsCompared(stat: string -> StatResult)
    ensures forall n :: n in PresentBelow(PathExists(stat), 10) ==> n in PresentBelow(StatExists(stat), 10)
    ensures (forall n: nat :: 1 <= n < 10 ==> stat(DirName(n)) != OtherError) ==>
              PresentBelow(PathExists(stat), 10) == PresentBelow(StatExists(stat), 10)
  {
    if forall n: nat :: 1 <= n < 10 ==> stat(DirName(n)) != OtherError {
      PresentAgree(PathExists(stat), StatExists(stat), 10);
    }
  }

  /** The ASCII digits at the start of `s`: what `\d+` matches there when every digit is ASCII. */
  function LeadingDigits(s: string): (r: string)
    ensures AllDigits(r) && StartsWith(s, r)
    ensures |r| < |s| ==> !IsDigit(s[|r|])
  {
    if s != [] && IsDigit(s[0]) then [s[0]] + LeadingDigits(s[1..]) else []
  }

  lemma {:induction false} LeadingDigitsAll(s: string)
    requires AllDigits(s)
    ensures LeadingDigits(s) == s
  {
    if s != [] {
      LeadingDigitsAll(s[1..]);
    }
  }

  /**
   * The sort key of a chapter directory: the number after a leading `ch`
   * (`int(re.match(r'ch(\d+)', name).group(1))`), or 0 when the name does not start so.
   * Only the ASCII digits '0'..'9' are read as `\d`.
   */
  function ChKey(name: string): (key: nat)
    ensures key != 0 ==> StartsWith(name, "ch")
  {
    if StartsWith(name, "ch") && LeadingDigits(name[2..]) != [] then ParseDecimal(LeadingDigits(name[2..])) else 0
  }

  /** The key of a chapter directory `chNN` is its chapter number. */
  lemma ChKeyOfDirName(n: nat)
    ensures ChKey(DirName(n)) == n
  {
    var d := DirName(n);
    assert d == "ch" + Pad(n);
    assert d[2..] == Pad(n);
    LeadingDigitsAll(Pad(n));
  }
}
