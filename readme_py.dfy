/**
 * readme.py: counts the files and lines of each language in the chapter
 * directories that are not Zig projects, and writes the README's header,
 * chapter links, requirements and statistics sections. The directory walk,
 * `count_lines` and the existence checks are inputs: each directory comes
 * with the files `os.walk` yields under it and their line counts.
 */
module ReadmePy {
  import opened Text
  import opened Sorting
  import opened Languages
  import opened Chapters

  /** A file the walk yields: its name and the number of lines `count_lines` reads from it. */
  datatype FileInfo = FileInfo(name: string, lines: nat)

  /** A sub-directory of the base directory: whether it holds a `build.zig`, and the files under it in walk order. */
  datatype ChDir = ChDir(name: string, zigProject: bool, files: seq<FileInfo>)

  /** The `{"files": .., "lines": ..}` record of one language. */
  datatype Stats = Stats(files: nat, lines: nat)

  const Zero := Stats(0, 0)

  function Plus(a: Stats, b: Stats): Stats {
    Stats(a.files + b.files, a.lines + b.lines)
  }

  /** A language's record, or zero counts for a language the dictionary lacks. */
  function Get(m: map<Language, Stats>, lang: Language): Stats {
    if lang in m then m[lang] else Zero
  }

  /** The sums over every language of the file and the line counts. */
  function SumFiles(m: map<Language, Stats>): nat {
    Get(m, C).files + Get(m, Cpp).files + Get(m, Zig).files + Get(m, Rust).files + Get(m, Unknown).files
  }

  function SumLines(m: map<Language, Stats>): nat {
    Get(m, C).lines + Get(m, Cpp).lines + Get(m, Zig).lines + Get(m, Rust).lines + Get(m, Unknown).lines
  }

  /** A file is counted unless it is a Makefile (in any case) or of unknown language. */
  predicate Counted(f: FileInfo) {
    !IsMakefile(f.name) && GetLanguageLower(f.name) != Unknown
  }

  /** Whether one file is counted in `lang`. */
  predicate CountedIn(f: FileInfo, lang: Language) {
    Counted(f) && GetLanguageLower(f.name) == lang
  }

  /** The number of files counted in `lang`. */
  function FileCount(files: seq<FileInfo>, lang: Language): nat
    decreases |files|
  {
    if files == [] then 0
    else FileCount(files[..|files| - 1], lang) + (if CountedIn(files[|files| - 1], lang) then 1 else 0)
  }

  /** The lines of the files counted in `lang`. */
  function LineCount(files: seq<FileInfo>, lang: Language): nat
    decreases |files|
  {
    if files == [] then 0
    else LineCount(files[..|files| - 1], lang) + (if CountedIn(files[|files| - 1], lang) then files[|files| - 1].lines else 0)
  }

  /** `setdefault` on an insertion-ordered dictionary: a new key goes last. */
  function AddKey(order: seq<Language>, lang: Language): seq<Language> {
    if lang in order then order else order + [lang]
  }

  /** The key order after counting the given files: languages in order of first appearance. */
  function KeysAfter(order: seq<Language>, files: seq<FileInfo>): seq<Language>
    decreases |files|
  {
    if files == [] then order
    else
      var before := KeysAfter(order, files[..|files| - 1]);
      var f := files[|files| - 1];
      if Counted(f) then AddKey(before, GetLanguageLower(f.name)) else before
  }

  /** `setdefault` of each key of `keys` in turn. */
  function AddKeys(order: seq<Language>, keys: seq<Language>): seq<Language>
    decreases |keys|
  {
    if keys == [] then order else AddKey(AddKeys(order, keys[..|keys| - 1]), keys[|keys| - 1])
  }

  lemma AddKeysNext(order: seq<Language>, keys: seq<Language>, i: nat)
    requires i < |keys|
    ensures AddKeys(order, keys[..i + 1]) == AddKey(AddKeys(order, keys[..i]), keys[i])
  {
    assert keys[..i + 1][..i] == keys[..i];
  }

  /** Adding keys keeps the old ones and adds exactly the new ones. */
  lemma {:induction false} AddKeysMember(order: seq<Language>, keys: seq<Language>, lang: Language)
    ensures lang in AddKeys(order, keys) <==> lang in order || lang in keys
    decreases |keys|
  {
    if keys != [] {
      AddKeysMember(order, keys[..|keys| - 1], lang);
      assert keys == keys[..|keys| - 1] + [keys[|keys| - 1]];
    }
  }

  /**
   * Counting files into a fresh dictionary and merging its keys into an old
   * order gives the order of counting the same files straight into the old one.
   */
  lemma {:induction false} MergedKeys(order: seq<Language>, files: seq<FileInfo>)
    ensures AddKeys(order, KeysAfter([], files)) == KeysAfter(order, files)
    decreases |files|
  {
    if files != [] {
      var init, f := files[..|files| - 1], files[|files| - 1];
      MergedKeys(order, init);
      var k := KeysAfter([], init);
      if Counted(f) {
        var lang := GetLanguageLower(f.name);
        if lang in k {
          AddKeysMember(order, k, lang);
        } else {
          assert (k + [lang])[..|k|] == k;
        }
      }
    }
  }

  /** Every counted file of the non-project directories, directory after directory. */
  function DirFileSeq(dirs: seq<ChDir>): seq<FileInfo>
    decreases |dirs|
  {
    if dirs == [] then []
    else
      var d := dirs[|dirs| - 1];
      DirFileSeq(dirs[..|dirs| - 1]) + (if d.zigProject then [] else d.files)
  }

  /** Counting two runs of files one after the other orders the keys as counting them together. */
  lemma {:induction false} KeysAfterAppend(order: seq<Language>, a: seq<FileInfo>, b: seq<FileInfo>)
    ensures KeysAfter(order, a + b) == KeysAfter(KeysAfter(order, a), b)
    decreases |b|
  {
    if b == [] {
      assert a + b == a;
    } else {
      assert (a + b)[..|a + b| - 1] == a + b[..|b| - 1];
      KeysAfterAppend(order, a, b[..|b| - 1]);
    }
  }

  /** The counted files among the given ones. */
  function CountedFiles(files: seq<FileInfo>): seq<FileInfo>
    decreases |files|
  {
    if files == [] then []
    else CountedFiles(files[..|files| - 1]) + (if Counted(files[|files| - 1]) then [files[|files| - 1]] else [])
  }

  function LineSum(files: seq<FileInfo>): nat
    decreases |files|
  {
    if files == [] then 0 else LineSum(files[..|files| - 1]) + files[|files| - 1].lines
  }

  /**
   * A per-language dictionary of file and line counts, with Python's
   * insertion order of its keys kept in `order`.
   */
  class LanguageFiles {
    var order: seq<Language>
    var stats: map<Language, Stats>

    /** The keys are exactly the languages of `order`, each once. */
    ghost predicate Valid()
      reads this
    {
      (forall lang :: lang in stats <==> lang in order) &&
      (forall i, j :: 0 <= i < j < |order| ==> order[i] != order[j])
    }

    /** `{}` */
    constructor()
      ensures Valid() && order == [] && stats == map[]
    {
      order := [];
      stats := map[];
    }

    /** `setdefault(lang, {"files": 0, "lines": 0})`, then both counts increased by `s`. */
    method Add(lang: Language, s: Stats)
      requires Valid()
      modifies this
      ensures Valid()
      ensures stats == old(stats)[lang := Plus(Get(old(stats), lang), s)]
      ensures order == AddKey(old(order), lang)
    {
      if lang !in stats {
        stats := stats[lang := Zero];
        order := order + [lang];
      }
      stats := stats[lang := Plus(stats[lang], s)];
    }

    /** One iteration of `list_files_in_directory`'s inner loop. */
    method CountFile(f: FileInfo)
      requires Valid()
      modifies this
      ensures Valid()
      ensures forall lang :: Get(stats, lang).files == Get(old(stats), lang).files + (if CountedIn(f, lang) then 1 else 0)
      ensures forall lang :: Get(stats, lang).lines == Get(old(stats), lang).lines + (if CountedIn(f, lang) then f.lines else 0)
      ensures order == if Counted(f) then AddKey(old(order), GetLanguageLower(f.name)) else old(order)
      ensures Unknown in stats ==> Unknown in old(stats)
    {
      if Lower(f.name) != "makefile" {
        var lang := GetLanguageLower(f.name);
        if lang != Unknown {
          Add(lang, Stats(1, f.lines));
        }
      }
    }

    /**
     * `list_files_in_directory`: every counted file adds one file and its
     * line count to its language's record; Makefiles and files of unknown
     * language change nothing.
     */
    method ListFiles(files: seq<FileInfo>)
      requires Valid()
      modifies this
      ensures Valid()
      ensures forall lang :: Get(stats, lang).files == Get(old(stats), lang).files + FileCount(files, lang)
      ensures forall lang :: Get(stats, lang).lines == Get(old(stats), lang).lines + LineCount(files, lang)
      ensures order == KeysAfter(old(order), files)
      ensures Unknown in stats ==> Unknown in old(stats)
    {
      var i := 0;
      while i < |files|
        invariant 0 <= i <= |files| && Valid()
        invariant forall lang :: Get(stats, lang).files == Get(old(stats), lang).files + FileCount(files[..i], lang)
        invariant forall lang :: Get(stats, lang).lines == Get(old(stats), lang).lines + LineCount(files[..i], lang)
        invariant order == KeysAfter(old(order), files[..i])
        invariant Unknown in stats ==> Unknown in old(stats)
      {
        assert files[..i + 1][..i] == files[..i];
        CountFile(files[i]);
        i := i + 1;
      }
      assert files[..|files|] == files;
    }
  }

  /**
   * The loop over `language_files.items()` in `process_ch_directories`: each
   * language's record is added into the overall dictionary and into the two
   * totals.
   */
  method MergeDir(overall: LanguageFiles, local: LanguageFiles, files0: nat, lines0: nat)
    returns (totalFiles: nat, totalLines: nat)
    requires overall != local && overall.Valid() && local.Valid()
    modifies overall
    ensures overall.Valid()
    ensures forall lang :: Get(overall.stats, lang).files == Get(old(overall.stats), lang).files + Get(local.stats, lang).files
    ensures forall lang :: Get(overall.stats, lang).lines == Get(old(overall.stats), lang).lines + Get(local.stats, lang).lines
    ensures totalFiles == files0 + SumFiles(local.stats) && totalLines == lines0 + SumLines(local.stats)
    ensures overall.stats.Keys <= old(overall.stats).Keys + local.stats.Keys
    ensures overall.order == AddKeys(old(overall.order), local.order)
  {
    totalFiles, totalLines := files0, lines0;
    ghost var done: set<Language> := {};
    var i := 0;
    while i < |local.order|
      invariant 0 <= i <= |local.order| && overall.Valid()
      invariant forall k :: 0 <= k < i ==> local.order[k] in done
      invariant forall k :: i <= k < |local.order| ==> local.order[k] !in done
      invariant done <= local.stats.Keys
      invariant Merging(old(overall.stats), overall.stats, local.stats, done)
      invariant totalFiles + SumFiles(old(overall.stats)) == files0 + SumFiles(overall.stats)
      invariant totalLines + SumLines(old(overall.stats)) == lines0 + SumLines(overall.stats)
      invariant overall.order == AddKeys(old(overall.order), local.order[..i])
    {
      AddKeysNext(old(overall.order), local.order, i);
      var lang := local.order[i];
      var s := local.stats[lang];
      ghost var before := overall.stats;
      overall.Add(lang, s);
      SumAfterAdd(before, lang, s);
      MergeStep(old(overall.stats), before, overall.stats, local.stats, lang, done);
      done := done + {lang};
      totalFiles := totalFiles + s.files;
      totalLines := totalLines + s.lines;
      i := i + 1;
    }
    MergeComplete(old(overall.stats), overall.stats, local.stats, done);
    assert local.order[..|local.order|] == local.order;
  }

  /**
   * Part way through the merge: the languages in `done` hold the sum of
   * both records, every other language its record from before, and no key
   * comes from anywhere else.
   */
  ghost predicate Merging(before: map<Language, Stats>, cur: map<Language, Stats>, m: map<Language, Stats>, done: set<Language>) {
    (forall lang :: lang !in done ==> Get(cur, lang) == Get(before, lang)) &&
    (forall lang :: lang in done ==> Get(cur, lang) == Plus(Get(before, lang), Get(m, lang))) &&
    cur.Keys <= before.Keys + m.Keys
  }

  lemma MergeStep(before: map<Language, Stats>, cur: map<Language, Stats>, next: map<Language, Stats>,
                  m: map<Language, Stats>, lang: Language, done: set<Language>)
    requires Merging(before, cur, m, done) && lang !in done && lang in m
    requires next == cur[lang := Plus(Get(cur, lang), m[lang])]
    ensures Merging(before, next, m, done + {lang})
  {
  }

  lemma MergeComplete(before: map<Language, Stats>, after: map<Language, Stats>, m: map<Language, Stats>, done: set<Language>)
    requires Merging(before, after, m, done) && m.Keys <= done
    ensures forall lang :: Get(after, lang).files == Get(before, lang).files + Get(m, lang).files
    ensures forall lang :: Get(after, lang).lines == Get(before, lang).lines + Get(m, lang).lines
    ensures after.Keys <= before.Keys + m.Keys
  {
  }
  /** Adding a record to one language adds its counts to the sums over all languages. */
  lemma SumAfterAdd(m: map<Language, Stats>, lang: Language, s: Stats)
    ensures SumFiles(m[lang := Plus(Get(m, lang), s)]) == SumFiles(m) + s.files
    ensures SumLines(m[lang := Plus(Get(m, lang), s)]) == SumLines(m) + s.lines
  {
  }

  /** The key `ch_directories` is sorted by. */
  function DirKey(d: ChDir): int {
    ChKey(d.name)
  }

  /** The files of `lang` over the directories that are not Zig projects. */
  function DirFiles(dirs: seq<ChDir>, lang: Language): nat
    decreases |dirs|
  {
    if dirs == [] then 0
    else
      var d := dirs[|dirs| - 1];
      DirFiles(dirs[..|dirs| - 1], lang) + (if d.zigProject then 0 else FileCount(d.files, lang))
  }

  /** The lines of `lang` over the directories that are not Zig projects. */
  function DirLines(dirs: seq<ChDir>, lang: Language): nat
    decreases |dirs|
  {
    if dirs == [] then 0
    else
      var d := dirs[|dirs| - 1];
      DirLines(dirs[..|dirs| - 1], lang) + (if d.zigProject then 0 else LineCount(d.files, lang))
  }

  /**
   * `process_ch_directories` up to the plot: the directories in the order of
   * their chapter number, the overall dictionary, which holds the sum of
   * the per-directory counts of every language, and the two totals, which
   * are the sums of the overall counts.
   */
  method ProcessChDirectories(dirs: seq<ChDir>) returns (overall: LanguageFiles, totalFiles: nat, totalLines: nat)
    ensures overall.Valid()
    ensures forall lang :: Get(overall.stats, lang) == Stats(DirFiles(SortByKey(dirs, DirKey), lang), DirLines(SortByKey(dirs, DirKey), lang))
    ensures totalFiles == SumFiles(overall.stats) && totalLines == SumLines(overall.stats)
    ensures Unknown !in overall.stats
    ensures overall.order == KeysAfter([], DirFileSeq(SortByKey(dirs, DirKey)))
  {
    var sorted := SortByKey(dirs, DirKey);
    overall := new LanguageFiles();
    totalFiles, totalLines := 0, 0;
    for i := 0 to |sorted|
      invariant overall.Valid()
      invariant forall lang :: Get(overall.stats, lang).files == DirFiles(sorted[..i], lang)
      invariant forall lang :: Get(overall.stats, lang).lines == DirLines(sorted[..i], lang)
      invariant totalFiles == SumFiles(overall.stats) && totalLines == SumLines(overall.stats)
      invariant Unknown !in overall.stats
      invariant overall.order == KeysAfter([], DirFileSeq(sorted[..i]))
    {
      DirCountsStep(sorted, i);
      KeysAfterAppend([], DirFileSeq(sorted[..i]), if sorted[i].zigProject then [] else sorted[i].files);
      totalFiles, totalLines := CountDir(overall, sorted[i], totalFiles, totalLines);
    }
    assert sorted[..|sorted|] == sorted;
  }

  lemma DirCountsStep(dirs: seq<ChDir>, i: nat)
    requires i < |dirs|
    ensures forall lang :: DirFiles(dirs[..i + 1], lang) == DirFiles(dirs[..i], lang) + (if dirs[i].zigProject then 0 else FileCount(dirs[i].files, lang))
    ensures forall lang :: DirLines(dirs[..i + 1], lang) == DirLines(dirs[..i], lang) + (if dirs[i].zigProject then 0 else LineCount(dirs[i].files, lang))
    ensures DirFileSeq(dirs[..i + 1]) == DirFileSeq(dirs[..i]) + (if dirs[i].zigProject then [] else dirs[i].files)
  {
    assert dirs[..i + 1][..i] == dirs[..i];
  }

  /** One iteration of `process_ch_directories`: a directory that is not a Zig project is counted and merged. */
  method CountDir(overall: LanguageFiles, d: ChDir, files0: nat, lines0: nat) returns (totalFiles: nat, totalLines: nat)
    requires overall.Valid() && Unknown !in overall.stats
    requires files0 == SumFiles(overall.stats) && lines0 == SumLines(overall.stats)
    modifies overall
    ensures overall.Valid() && Unknown !in overall.stats
    ensures forall lang :: Get(overall.stats, lang).files == Get(old(overall.stats), lang).files + (if d.zigProject then 0 else FileCount(d.files, lang))
    ensures forall lang :: Get(overall.stats, lang).lines == Get(old(overall.stats), lang).lines + (if d.zigProject then 0 else LineCount(d.files, lang))
    ensures totalFiles == SumFiles(overall.stats) && totalLines == SumLines(overall.stats)
    ensures overall.order == if d.zigProject then old(overall.order) else KeysAfter(old(overall.order), d.files)
  {
    totalFiles, totalLines := files0, lines0;
    if !d.zigProject {
      var local := new LanguageFiles();
      local.ListFiles(d.files);
      MergedKeys(overall.order, d.files);
      NothingUnknown(d.files);
      totalFiles, totalLines := MergeDir(overall, local, totalFiles, totalLines);
    }
  }

  /** No file is ever counted as Unknown. */
  lemma {:induction false} NothingUnknown(files: seq<FileInfo>)
    ensures FileCount(files, Unknown) == 0 && LineCount(files, Unknown) == 0
    decreases |files|
  {
    if files != [] {
      NothingUnknown(files[..|files| - 1]);
    }
  }

  /** Counting two runs of files is adding their counts. */
  lemma {:induction false} CountAppend(a: seq<FileInfo>, b: seq<FileInfo>, lang: Language)
    ensures FileCount(a + b, lang) == FileCount(a, lang) + FileCount(b, lang)
    ensures LineCount(a + b, lang) == LineCount(a, lang) + LineCount(b, lang)
    decreases |b|
  {
    if b == [] {
      assert a + b == a;
    } else {
      assert (a + b)[..|a + b| - 1] == a + b[..|b| - 1];
      CountAppend(a, b[..|b| - 1], lang);
    }
  }

  /**
   * Every counted file falls in exactly one language: the per-language
   * counts add up to the number of counted files and to their lines.
   */
  lemma {:induction false} TallyPartition(files: seq<FileInfo>)
    ensures FileCount(files, C) + FileCount(files, Cpp) + FileCount(files, Zig) + FileCount(files, Rust)
         == |CountedFiles(files)|
    ensures LineCount(files, C) + LineCount(files, Cpp) + LineCount(files, Zig) + LineCount(files, Rust)
         == LineSum(CountedFiles(files))
    decreases |files|
  {
    if files != [] {
      var init, f := files[..|files| - 1], files[|files| - 1];
      TallyPartition(init);
      LineSumAppend(CountedFiles(init), if Counted(f) then [f] else []);
    }
  }

  lemma {:induction false} LineSumAppend(a: seq<FileInfo>, b: seq<FileInfo>)
    requires |b| <= 1
    ensures LineSum(a + b) == LineSum(a) + LineSum(b)
  {
    if b != [] {
      assert (a + b)[..|a + b| - 1] == a;
      assert b[..0] == [];
    } else {
      assert a + b == a;
    }
  }

  /** Directories that are Zig projects add nothing to any language. */
  lemma {:induction false} ZigProjectsAddNothing(dirs: seq<ChDir>, lang: Language)
    requires forall k :: 0 <= k < |dirs| ==> dirs[k].zigProject
    ensures DirFiles(dirs, lang) == 0 && DirLines(dirs, lang) == 0
    decreases |dirs|
  {
    if dirs != [] {
      ZigProjectsAddNothing(dirs[..|dirs| - 1], lang);
    }
  }

  /** The chapter directories are visited in ascending chapter number, ties in listing order. */
  lemma VisitOrder(dirs: seq<ChDir>, k: int)
    ensures SortedByKey(SortByKey(dirs, DirKey), DirKey)
    ensures multiset(SortByKey(dirs, DirKey)) == multiset(dirs)
    ensures WithKey(SortByKey(dirs, DirKey), DirKey, k) == WithKey(dirs, DirKey, k)
  {
    SortByKeyIsStable(dirs, DirKey, k);
  }

  const HEADER := "# Zig Unleashed \n## A Comprehensive Guide to Robust and Optimal Programming \n\n> In this repository, you will find code samples for each chapter of the book. \n> The book mentions the name of each file, which corresponds to the respective file in this repository.\n\n### Chapters  \n"

  /** The lines of the "Software Requirements" section, each written followed by a newline. */
  const SOFTWARE_REQ_LINES: seq<string> := [
    "## Software Requirements",
    "It is recommended to use a `linux` operating system as we use `Makefile` extensively throughout this repository, "
      + "however, you may use `Windows` (recommended to use `zig cc/c++` as the `C/C++` compiler respectively). ",
    "",
    "Required: ",
    "- `zig`: `v0.11.0`",
    "- `rustc`: `> v1.63`",
    "- `clang/gcc`: `v13.0.0/v11.4.0`",
    "- `g++`: `v11.4.0`",
    "- `make`: `v4.3`",
    "",
    "For `ch09`'s cross-compilation you will need the following if you would like to target the Raspberry Pi 4: ",
    "",
    "Dependencies:",
    "```shell ",
    "$ sudo apt install gcc-arm-linux-gnueabihf binutils-arm-linux-gnueabihf "
      + "binutils-arm-linux-gnueabihf-dbg qemu-user",
    "```",
    "",
    "Rust target: `rustup target add armv7-unknown-linux-gnueabihf`",
    "  "
  ]

  const STATISTICS := "\n\n# Statistics\n\n## File and Line Distribution\n\n![File and Line Distribution Plot](statistics_plot.png)\n\n## Table\n\n"

  /**
   * The README that `process_ch_directories` writes: the header, the links
   * of the chapters whose directory `os.path.exists` finds, the requirements
   * between two rules, the statistics headings, then the Markdown table.
   */
  method WriteReadme(stat: string -> StatResult, table: string) returns (readme: string)
    ensures readme == HEADER + Terminated(LinkLines(PresentBelow(PathExists(stat), 10)), "\n")
                    + "---\n" + Terminated(SOFTWARE_REQ_LINES, "\n") + "---\n" + STATISTICS + table
  {
    readme := HEADER;
    var links := WriteLinks(PathExists(stat));
    readme := readme + links;
    readme := readme + "---\n";
    readme := readme + Terminated(SOFTWARE_REQ_LINES, "\n");
    readme := readme + "---\n";
    readme := readme + STATISTICS;
    readme := readme + table;
  }
}
