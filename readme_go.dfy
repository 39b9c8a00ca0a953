/**
 * readme.go: writes the README's header and one link line per chapter
 * directory that `if_exists` reports, for chapters 1 to 9 in order. The
 * file system is the `stat` parameter: what `os.Stat` reports for a path.
 */
module ReadmeGo {
  import opened Text
  import opened Chapters

  const HEADER := "# Zig Unleashed \n## A Comprehensive Guide to Robust and Optimal Programming \n\nIn this repository, you will find code samples for each chapter of the book. The book mentions the name of each file, which corresponds to the respective file in this repository.\n\n### Chapters  \n\n"

  /**
   * `main`: the README text, which is the header followed by the link lines
   * of the chapters whose directory is not reported missing.
   */
  method Generate(stat: string -> StatResult) returns (readme: string)
    ensures readme == HEADER + Terminated(LinkLines(PresentBelow(StatExists(stat), 10)), "\n")
  {
    readme := HEADER;
    var links := WriteLinks(StatExists(stat));
    readme := readme + links;
  }

  /**
   * A chapter is listed exactly when its number is 1 to 9 and stat does not
   * say "does not exist" for `chNN`; a directory stat cannot read is listed.
   */
  lemma Listed(stat: string -> StatResult, n: nat)
    ensures n in PresentBelow(StatExists(stat), 10) <==> 1 <= n <= 9 && stat(DirName(n)) != NotExist
    ensures 1 <= n <= 9 && stat(DirName(n)) == OtherError ==> n in PresentBelow(StatExists(stat), 10)
  {
  }
}
