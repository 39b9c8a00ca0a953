/**
 * programs.py: for each directory of the base directory, in chapter order,
 * prints a heading and then either "Zig project directory" or one line per
 * file (Makefiles excepted) with its language, the files sorted by language
 * name. The directory walk and the `build.zig` check are inputs; each
 * printed line is one element of the output.
 */
module Programs {
  import opened Text
  import opened Sorting
  import opened Languages
  import opened Chapters

  /** A sub-directory of the base directory: whether it holds a `build.zig`, and the file names the walk yields under it. */
  datatype ChDir = ChDir(name: string, zigProject: bool, files: seq<string>)

  /** One `(file_name, language)` tuple of `file_info_list`. */
  datatype FileEntry = FileEntry(name: string, language: Language)

  /** `file_info_list` after the walk: every file but the Makefiles, with its case-sensitive language, in walk order. */
  function FileInfoList(files: seq<string>): seq<FileEntry>
    decreases |files|
  {
    if files == [] then []
    else
      var f := files[|files| - 1];
      FileInfoList(files[..|files| - 1]) + (if IsMakefile(f) then [] else [FileEntry(f, GetLanguage(f))])
  }

  /** A file is listed exactly when it is walked and is not a Makefile, whatever its language, Unknown included. */
  lemma {:induction false} FileInfoListMember(files: seq<string>, e: FileEntry)
    ensures e in FileInfoList(files) <==> e.name in files && !IsMakefile(e.name) && e.language == GetLanguage(e.name)
    decreases |files|
  {
    if files != [] {
      var init, f := files[..|files| - 1], files[|files| - 1];
      FileInfoListMember(init, e);
      assert files == init + [f];
    }
  }

  /** The key of `sorted(file_info_list, key=lambda x: x[1])`. */
  function LanguageKey(e: FileEntry): int {
    Rank(e.language)
  }

  /** `f"File: {file_name}, Language: {language}"` */
  function FileMessage(e: FileEntry): string {
    "File: " + e.name + ", Language: " + Name(e.language)
  }

  function Messages(entries: seq<FileEntry>): (lines: seq<string>)
    ensures |lines| == |entries|
  {
    seq(|entries|, k requires 0 <= k < |entries| => FileMessage(entries[k]))
  }

  /** The file list in the order it is printed. */
  function SortedFileInfo(files: seq<string>): seq<FileEntry> {
    SortByKey(FileInfoList(files), LanguageKey)
  }

  /**
   * The printed list is sorted by language name, holds exactly the listed
   * files, and keeps the walk order among files of one language.
   */
  lemma SortedFileInfoOrder(files: seq<string>, lang: Language, i: nat, j: nat)
    requires i <= j < |SortedFileInfo(files)|
    ensures LexLe(Name(SortedFileInfo(files)[i].language), Name(SortedFileInfo(files)[j].language))
    ensures multiset(SortedFileInfo(files)) == multiset(FileInfoList(files))
    ensures WithKey(SortedFileInfo(files), LanguageKey, Rank(lang)) == WithKey(FileInfoList(files), LanguageKey, Rank(lang))
  {
    var s := SortedFileInfo(files);
    SortedByKeyPairwise(s, LanguageKey, i, j);
    RankIsNameOrder(s[i].language, s[j].language);
    SortByKeyIsStable(FileInfoList(files), LanguageKey, Rank(lang));
  }

  /** The walk loop of `list_files_in_directory`: collects `file_info_list`. */
  method CollectFileInfo(files: seq<string>) returns (info: seq<FileEntry>)
    ensures info == FileInfoList(files)
  {
    info := [];
    for i := 0 to |files|
      invariant info == FileInfoList(files[..i])
    {
      assert files[..i + 1][..i] == files[..i];
      var f := files[i];
      if !IsMakefile(f) {
        info := info + [FileEntry(f, GetLanguage(f))];
      }
    }
    assert files[..|files|] == files;
  }

  /** The print loop of `list_files_in_directory`: one line per entry, in order. */
  method PrintEntries(entries: seq<FileEntry>) returns (out: seq<string>)
    ensures out == Messages(entries)
  {
    out := [];
    for j := 0 to |entries|
      invariant out == Messages(entries[..j])
    {
      assert Messages(entries[..j + 1]) == Messages(entries[..j]) + [FileMessage(entries[j])];
      out := out + [FileMessage(entries[j])];
    }
    assert entries[..|entries|] == entries;
  }

  /** `list_files_in_directory`: the printed lines for one directory. */
  method ListFiles(files: seq<string>) returns (out: seq<string>)
    ensures out == Messages(SortedFileInfo(files))
  {
    var info := CollectFileInfo(files);
    out := PrintEntries(SortByKey(info, LanguageKey));
  }

  /** The key `ch_directories` is sorted by. */
  function DirKey(d: ChDir): int {
    ChKey(d.name)
  }

  /** `f"\nProcessing directory: {os.path.join('.', d)}"` */
  function Heading(d: ChDir): string {
    "\nProcessing directory: ./" + d.name
  }

  /** What is printed for one directory. */
  function DirOutput(d: ChDir): seq<string> {
    [Heading(d)] + (if d.zigProject then ["Zig project directory"] else Messages(SortedFileInfo(d.files)))
  }

  function Output(dirs: seq<ChDir>): seq<string>
    decreases |dirs|
  {
    if dirs == [] then [] else Output(dirs[..|dirs| - 1]) + DirOutput(dirs[|dirs| - 1])
  }

  /** What `process_ch_directories` prints for one directory. */
  method ReportDir(d: ChDir) returns (out: seq<string>)
    ensures out == DirOutput(d)
  {
    out := [Heading(d)];
    if d.zigProject {
      out := out + ["Zig project directory"];
    } else {
      var lines := ListFiles(d.files);
      out := out + lines;
    }
  }

  /** The loop of `process_ch_directories` over directories already in order. */
  method ReportAll(dirs: seq<ChDir>) returns (out: seq<string>)
    ensures out == Output(dirs)
  {
    out := [];
    for i := 0 to |dirs|
      invariant out == Output(dirs[..i])
    {
      var lines := ReportDir(dirs[i]);
      OutputSnoc(dirs[..i], dirs[i]);
      assert dirs[..i + 1] == dirs[..i] + [dirs[i]];
      out := out + lines;
    }
    assert dirs[..|dirs|] == dirs;
  }

  /** `process_ch_directories`: the directories in chapter order, each with its heading and its files. */
  method ProcessChDirectories(dirs: seq<ChDir>) returns (out: seq<string>)
    ensures out == Output(SortByKey(dirs, DirKey))
  {
    out := ReportAll(SortByKey(dirs, DirKey));
  }

  lemma OutputSnoc(dirs: seq<ChDir>, d: ChDir)
    ensures Output(dirs + [d]) == Output(dirs) + DirOutput(d)
  {
    assert (dirs + [d])[..|dirs|] == dirs;
  }

  lemma FirstCharDiffers(s: string, p: string)
    requires s != [] && p != [] && s[0] != p[0]
    ensures !StartsWith(s, p)
  {
  }

  /** A Zig project is reported in two lines, and none of them lists a file. */
  lemma ZigProjectUnlisted(d: ChDir)
    requires d.zigProject
    ensures |DirOutput(d)| == 2
    ensures forall k :: 0 <= k < |DirOutput(d)| ==> !StartsWith(DirOutput(d)[k], "File: ")
  {
    var out := DirOutput(d);
    assert out == [Heading(d), "Zig project directory"];
    FirstCharDiffers(Heading(d), "File: ");
    FirstCharDiffers("Zig project directory", "File: ");
  }

  lemma FileMessageShape(e: FileEntry)
    ensures StartsWith(FileMessage(e), "File: ")
  {
    assert FileMessage(e) == "File: " + (e.name + ", Language: " + Name(e.language));
  }

  /** Every other directory prints one line per listed file after its heading. */
  lemma FilesListed(d: ChDir)
    requires !d.zigProject
    ensures |DirOutput(d)| == 1 + |FileInfoList(d.files)|
    ensures forall k :: 1 <= k < |DirOutput(d)| ==> StartsWith(DirOutput(d)[k], "File: ")
  {
    var s := SortedFileInfo(d.files);
    var lines := Messages(s);
    assert DirOutput(d) == [Heading(d)] + lines;
    forall k | 0 <= k < |lines|
      ensures StartsWith(lines[k], "File: ")
    {
      FileMessageShape(s[k]);
    }
  }
}
