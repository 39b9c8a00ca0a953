/**
 * The language classification readme.py and programs.py share: a file's
 * language is decided by the text after its last '.', which readme.py
 * lowercases first and programs.py does not.
 */
module Languages {
  import opened Text

  datatype Language = C | Cpp | Zig | Rust | Unknown

  /** The string `get_language` returns. */
  function Name(lang: Language): string {
    match lang
    case C => "C"
    case Cpp => "C++"
    case Zig => "Zig"
    case Rust => "Rust"
    case Unknown => "Unknown"
  }

  /** The extension table of both scripts. */
  function LanguageOfExt(ext: string): Language {
    if ext in {"c", "h"} then C
    else if ext in {"cpp", "hpp", "cc", "cxx"} then Cpp
    else if ext == "zig" then Zig
    else if ext == "rs" then Rust
    else Unknown
  }

  /** `file_name.split('.')[-1]`: the text after the last '.', or the whole name when there is none. */
  function PyExtension(name: string): (ext: string)
    ensures '.' !in ext
    ensures EndsWith(name, ext)
  {
    LastPieceIsSuffix(name, '.');
    AfterLast(name, '.')
  }

  lemma {:induction false} LastPieceIsSuffix(s: string, c: char)
    ensures EndsWith(s, AfterLast(s, c))
    decreases |s|
  {
    var i := IndexOf(s, c);
    if i < |s| {
      var rest := s[i + 1..];
      AfterLastStep(s, c);
      LastPieceIsSuffix(rest, c);
      SuffixOfTail(s, i + 1, AfterLast(rest, c));
    } else {
      SplitOnFree(s, c);
      assert s[|s| - |s|..] == s;
    }
  }

  lemma SuffixOfTail(s: string, i: nat, t: string)
    requires i <= |s| && EndsWith(s[i..], t)
    ensures EndsWith(s, t)
  {
    assert s[|s| - |t|..] == s[i..][|s[i..]| - |t|..];
  }

  /** programs.py's `get_language`: case-sensitive. */
  function GetLanguage(name: string): Language {
    LanguageOfExt(PyExtension(name))
  }

  /** readme.py's `get_language`: the extension is lowercased first. */
  function GetLanguageLower(name: string): Language {
    LanguageOfExt(Lower(PyExtension(name)))
  }

  /** Lowercasing moves no '.', so the last piece of a lowercased name is the lowercased last piece. */
  lemma {:induction false} AfterLastLower(s: string, c: char)
    requires !('A' <= c <= 'Z') && !('a' <= c <= 'z')
    ensures AfterLast(Lower(s), c) == Lower(AfterLast(s, c))
    decreases |s|, 1
  {
    IndexOfLower(s, c);
    if IndexOf(s, c) < |s| {
      AfterLastLowerFound(s, c);
    } else {
      SplitOnFree(s, c);
      SplitOnFree(Lower(s), c);
    }
  }

  lemma {:induction false} AfterLastLowerFound(s: string, c: char)
    requires !('A' <= c <= 'Z') && !('a' <= c <= 'z')
    requires IndexOf(s, c) < |s| && IndexOf(Lower(s), c) == IndexOf(s, c)
    ensures AfterLast(Lower(s), c) == Lower(AfterLast(s, c))
    decreases |s|, 0
  {
    var i := IndexOf(s, c);
    var rest := s[i + 1..];
    AfterLastStep(s, c);
    AfterLastStep(Lower(s), c);
    LowerSuffix(s, i + 1);
    AfterLastLower(rest, c);
  }

  lemma LowerSuffix(s: string, i: nat)
    requires i <= |s|
    ensures Lower(s)[i..] == Lower(s[i..])
  {
  }

  lemma {:induction false} AfterLastStep(s: string, c: char)
    requires IndexOf(s, c) < |s|
    ensures AfterLast(s, c) == AfterLast(s[IndexOf(s, c) + 1..], c)
  {
    var i := IndexOf(s, c);
    var tail := SplitOn(s[i + 1..], c);
    var parts := [s[..i]] + tail;
    assert SplitOn(s, c) == parts;
    assert parts[|parts| - 1] == tail[|tail| - 1];
  }

  lemma {:induction false} IndexOfLower(s: string, c: char)
    requires !('A' <= c <= 'Z') && !('a' <= c <= 'z')
    ensures IndexOf(Lower(s), c) == IndexOf(s, c)
    decreases |s|
  {
    if s != [] {
      assert Lower(s)[0] == LowerChar(s[0]);
      if s[0] != c {
        assert Lower(s)[1..] == Lower(s[1..]);
        IndexOfLower(s[1..], c);
      }
    }
  }

  /** A name `stem.ext` whose `ext` has no '.' has extension `ext`, whatever the stem. */
  lemma ExtensionOfDotted(stem: string, ext: string)
    requires '.' !in ext
    ensures PyExtension(stem + "." + ext) == ext
  {
    SplitOnConcat(stem, '.', ext);
    SplitOnFree(ext, '.');
  }

  /**
   * readme.py's classification is programs.py's applied to the lowercased
   * name: lowercasing the extension is lowercasing the name and then taking
   * its extension.
   */
  lemma GetLanguageLowerOfLowered(name: string)
    ensures GetLanguageLower(name) == GetLanguage(Lower(name))
  {
    AfterLastLower(name, '.');
  }

  /** The case-sensitive variant does not recognise an upper-case `.C`; the lowercasing one does. */
  lemma UpperCaseExtension()
    ensures GetLanguage("main.C") == Unknown
    ensures GetLanguageLower("main.C") == C
  {
    MainCExtension();
    LowerUpperC();
    assert LanguageOfExt("C") == Unknown;
    assert LanguageOfExt("c") == C;
  }

  lemma LowerUpperC()
    ensures Lower("C") == "c"
  {
    var lc := Lower("C");
    assert |lc| == 1 && lc[0] == 'c';
  }

  lemma MainCExtension()
    ensures PyExtension("main.C") == "C"
  {
    ExtensionOfDotted("main", "C");
    assert "main" + "." + "C" == "main.C";
  }

  /**
   * On lower-case extensions the two classifications agree, so both map
   * exactly the same extensions to each language.
   */
  lemma SameTable(name: string)
    requires Lower(PyExtension(name)) == PyExtension(name)
    ensures GetLanguageLower(name) == GetLanguage(name)
    ensures GetLanguage(name) == C <==> PyExtension(name) in {"c", "h"}
    ensures GetLanguage(name) == Cpp <==> PyExtension(name) in {"cpp", "hpp", "cc", "cxx"}
    ensures GetLanguage(name) == Unknown <==> PyExtension(name) !in {"c", "h", "cpp", "hpp", "cc", "cxx", "zig", "rs"}
  {
  }

  /** `file_name.lower() != "makefile"`: the check both scripts use to skip Makefiles. */
  predicate IsMakefile(name: string) {
    Lower(name) == "makefile"
  }

  /** The position of a language's name in Python's string order. */
  function Rank(lang: Language): int {
    match lang
    case C => 0
    case Cpp => 1
    case Rust => 2
    case Unknown => 3
    case Zig => 4
  }

  /** Sorting on `Rank` is sorting on the language names as Python compares them. */
  lemma RankIsNameOrder(a: Language, b: Language)
    ensures Rank(a) <= Rank(b) <==> LexLe(Name(a), Name(b))
  {
    assert LexLe("C", "C++") && !LexLe("C++", "C");
    assert LexLe("C++", "Rust") && !LexLe("Rust", "C++");
    assert LexLe("Rust", "Unknown") && !LexLe("Unknown", "Rust");
    assert LexLe("Unknown", "Zig") && !LexLe("Zig", "Unknown");
    LexLeTransitive(Name(C), Name(Cpp), Name(Rust));
    LexLeTransitive(Name(Cpp), Name(Rust), Name(Unknown));
    LexLeTransitive(Name(Rust), Name(Unknown), Name(Zig));
    LexLeTransitive(Name(C), Name(Rust), Name(Unknown));
    LexLeTransitive(Name(Cpp), Name(Unknown), Name(Zig));
    LexLeTransitive(Name(C), Name(Unknown), Name(Zig));
    LexLeTotal(Name(a), Name(a));
    if Rank(a) > Rank(b) && LexLe(Name(a), Name(b)) {
      LexLeAntisymmetric(Name(a), Name(b));
    }
  }
}
