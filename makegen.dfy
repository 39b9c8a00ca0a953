/**
 * makegen.rs: writes one Makefile per chapter. `MakeVar::search` sorts the
 * chapter's files into C, C++, Rust and Zig lists, `MakeVar::to_string` turns
 * them into Makefile variables, and `Commands` adds the compiler variables and
 * the `compile_*` rules.
 *
 * The chapter directory and its `exercises` directory are given as entry
 * sequences in `read_dir` order; `exercises == None` when that directory does
 * not exist.
 */
module MakeGen {
  import opened Wrappers
  import opened Text
  import opened Fs

  datatype ZigType = Bin | Test | Proj

  datatype Zig = Zig(file: string, ty: ZigType)

  /**
   * `Zig::new(ch, fileName)`: a directory is a Zig project; otherwise the file
   * is read, and it is an executable when its text contains "main" and a test
   * file otherwise. A failed read is the error, reported with its path.
   */
  function NewZig(ch: string, fileName: string, node: Node): (r: Result<Zig, string>)
    ensures r.Err? <==> node.Unreadable?
    ensures r.Err? ==> r.error == ch + "/" + fileName
    ensures r.Ok? ==> r.value.file == fileName
    ensures r.Ok? ==> (r.value.ty == Proj <==> node.Directory?)
    ensures r.Ok? ==> (r.value.ty == Bin <==> node.File? && Contains(node.content, "main"))
  {
    match node
    case Directory => Ok(Zig(fileName, Proj))
    case File(content) => Ok(Zig(fileName, if Contains(content, "main") then Bin else Test))
    case Unreadable => Err(ch + "/" + fileName)
  }

  // ---------------------------------------------------------------- search

  /**
   * The list `search` puts a chapter entry in: none for a name without an
   * extension, a name containing "extern", or an extension other than
   * c, cpp, rs and zig.
   */
  function KindOf(name: string): (k: Option<Kind>)
    ensures k.Some? <==>
              && !Contains(name, "extern")
              && RustExtension(name).Some?
              && RustExtension(name).value in {"c", "cpp", "rs", "zig"}
    ensures k.Some? ==> RustExtension(name) == Some(ExtensionOf(k.value))
  {
    match RustExtension(name)
    case None => None
    case Some(ext) =>
      if Contains(name, "extern") then None
      else if ext == "c" then Some(CFile)
      else if ext == "cpp" then Some(CppFile)
      else if ext == "rs" then Some(RsFile)
      else if ext == "zig" then Some(ZigFile)
      else None
  }

  /** The name of `e` if it goes in the list for `k`. */
  function NameIf(e: Entry, k: Kind): seq<string>
  {
    if KindOf(e.name) == Some(k) then [e.name] else []
  }

  /** The names of kind `k` among `entries`, in listing order. */
  function NamesOf(entries: seq<Entry>, k: Kind): seq<string>
  {
    if entries == [] then [] else NameIf(entries[0], k) + NamesOf(entries[1..], k)
  }

  /** A name is listed under `k` exactly when some entry has it and it is of kind `k`. */
  lemma {:induction false} NamesOfMember(entries: seq<Entry>, k: Kind, name: string)
    ensures name in NamesOf(entries, k) <==>
              KindOf(name) == Some(k) && exists i :: 0 <= i < |entries| && entries[i].name == name
    decreases |entries|
  {
    if entries != [] {
      var tail := entries[1..];
      NamesOfMember(tail, k, name);
      assert NamesOf(entries, k) == NameIf(entries[0], k) + NamesOf(tail, k);
      assert name in NameIf(entries[0], k) <==> KindOf(name) == Some(k) && entries[0].name == name;
      if exists i :: 0 <= i < |tail| && tail[i].name == name {
        var i :| 0 <= i < |tail| && tail[i].name == name;
        assert entries[i + 1].name == name;
      }
      if exists i :: 0 <= i < |entries| && entries[i].name == name {
        var i :| 0 <= i < |entries| && entries[i].name == name;
        if i > 0 {
          assert tail[i - 1].name == name;
        }
      }
    }
  }

  /** Names are kept in encounter order: listing `a` then `b` lists `a`'s names first. */
  lemma {:induction false} NamesOfAppend(a: seq<Entry>, b: seq<Entry>, k: Kind)
    ensures NamesOf(a + b, k) == NamesOf(a, k) + NamesOf(b, k)
    decreases |a|
  {
    if a == [] {
      assert a + b == b;
    } else {
      assert (a + b)[0] == a[0] && (a + b)[1..] == a[1..] + b;
      NamesOfAppend(a[1..], b, k);
      var p := NameIf(a[0], k);
      assert p + (NamesOf(a[1..], k) + NamesOf(b, k)) == (p + NamesOf(a[1..], k)) + NamesOf(b, k);
    }
  }

  /** `e` if it is a Zig file of the chapter. */
  function ZigIf(e: Entry): seq<Entry>
  {
    if KindOf(e.name) == Some(ZigFile) then [e] else []
  }

  /** The chapter entries `Zig::new` is called on, in listing order. */
  function ZigCandidates(entries: seq<Entry>): seq<Entry>
  {
    if entries == [] then [] else ZigIf(entries[0]) + ZigCandidates(entries[1..])
  }

  /** The exercise `e` as `exercises/<name>` if its name contains "zig". */
  function ExerciseIf(e: Entry): seq<Entry>
  {
    if Contains(e.name, "zig") then [Entry("exercises/" + e.name, e.node)] else []
  }

  /** The exercise entries whose name contains "zig", renamed `exercises/<name>`. */
  function ExerciseCandidates(entries: seq<Entry>): seq<Entry>
  {
    if entries == [] then [] else ExerciseIf(entries[0]) + ExerciseCandidates(entries[1..])
  }

  /** Every entry `Zig::new` is called on during one `search`. */
  function ZigInputs(entries: seq<Entry>, exercises: Option<seq<Entry>>): seq<Entry>
  {
    ZigCandidates(entries) + if exercises.Some? then ExerciseCandidates(exercises.value) else []
  }

  /**
   * `Zig::new` on each candidate in turn, stopping at the first failure (the
   * `?` in `search`).
   */
  function ScanZigs(ch: string, cands: seq<Entry>): Result<seq<Zig>, string>
  {
    if cands == [] then Ok([])
    else
      match NewZig(ch, cands[0].name, cands[0].node)
      case Err(p) => Err(p)
      case Ok(z) => Prepend([z], ScanZigs(ch, cands[1..]))
  }

  /** `done` followed by what a scan found, or the scan's failure. */
  function Prepend(done: seq<Zig>, r: Result<seq<Zig>, string>): Result<seq<Zig>, string>
  {
    match r
    case Err(p) => Err(p)
    case Ok(zs) => Ok(done + zs)
  }

  ghost predicate FirstUnreadable(cands: seq<Entry>, i: int) {
    && 0 <= i < |cands|
    && cands[i].node.Unreadable?
    && forall j :: 0 <= j < i ==> !cands[j].node.Unreadable?
  }

  /**
   * The scan succeeds exactly when no candidate is unreadable, and then holds
   * one `Zig` per candidate; otherwise it reports the first unreadable one.
   */
  lemma {:induction false} ScanZigsMeaning(ch: string, cands: seq<Entry>)
    ensures ScanZigs(ch, cands).Ok? <==> forall i :: 0 <= i < |cands| ==> !cands[i].node.Unreadable?
    ensures ScanZigs(ch, cands).Ok? ==>
              && |ScanZigs(ch, cands).value| == |cands|
              && forall i :: 0 <= i < |cands| ==>
                   NewZig(ch, cands[i].name, cands[i].node) == Ok(ScanZigs(ch, cands).value[i])
    ensures ScanZigs(ch, cands).Err? ==>
              exists i :: FirstUnreadable(cands, i) && ScanZigs(ch, cands).error == ch + "/" + cands[i].name
    decreases |cands|
  {
    if cands != [] {
      var tail := cands[1..];
      ScanZigsMeaning(ch, tail);
      var r := ScanZigs(ch, cands);
      if cands[0].node.Unreadable? {
        assert FirstUnreadable(cands, 0);
      } else {
        var z := NewZig(ch, cands[0].name, cands[0].node).value;
        match ScanZigs(ch, tail)
        case Err(p) =>
          var i :| FirstUnreadable(tail, i) && p == ch + "/" + tail[i].name;
          assert FirstUnreadable(cands, i + 1);
        case Ok(zs) =>
          assert r.value == [z] + zs;
          forall i | 0 <= i < |cands|
            ensures NewZig(ch, cands[i].name, cands[i].node) == Ok(r.value[i])
          {
            if i > 0 {
              assert cands[i] == tail[i - 1];
            }
          }
      }
    }
  }

  /** Scanning `a` then `b`: `b` is scanned only when `a` succeeded. */
  lemma {:induction false} ScanZigsAppend(ch: string, a: seq<Entry>, b: seq<Entry>)
    ensures ScanZigs(ch, a + b) ==
              match ScanZigs(ch, a)
              case Err(p) => Err(p)
              case Ok(zs) => Prepend(zs, ScanZigs(ch, b))
    decreases |a|
  {
    if a == [] {
      assert a + b == b;
      if ScanZigs(ch, b).Ok? {
        assert [] + ScanZigs(ch, b).value == ScanZigs(ch, b).value;
      }
    } else {
      assert (a + b)[0] == a[0] && (a + b)[1..] == a[1..] + b;
      ScanZigsAppend(ch, a[1..], b);
      match NewZig(ch, a[0].name, a[0].node)
      case Err(_) =>
      case Ok(z) =>
        match ScanZigs(ch, a[1..])
        case Err(_) =>
        case Ok(zs) => PrependTwice([z], zs, ScanZigs(ch, b));
    }
  }

  /** Prepending in two steps is prepending once. */
  lemma PrependTwice(a: seq<Zig>, b: seq<Zig>, r: Result<seq<Zig>, string>)
    ensures Prepend(a, Prepend(b, r)) == Prepend(a + b, r)
  {
    if r.Ok? {
      assert a + (b + r.value) == (a + b) + r.value;
    }
  }

  class MakeVar {
    var c: seq<string>
    var cpp: seq<string>
    var rs: seq<string>
    var zig: seq<Zig>

    /** `MakeVar::new`: four empty lists. */
    constructor ()
      ensures c == [] && cpp == [] && rs == [] && zig == []
    {
      c, cpp, rs, zig := [], [], [], [];
    }

    /**
     * `search(ch)`: pushes each chapter entry onto its list and then each
     * exercise candidate onto `zig`. It fails exactly when `Zig::new` fails
     * on some candidate, with the first such failure.
     */
    method Search(ch: string, entries: seq<Entry>, exercises: Option<seq<Entry>>) returns (r: Result<(), string>)
      modifies this
      ensures r.Ok? <==> ScanZigs(ch, ZigInputs(entries, exercises)).Ok?
      ensures r.Err? ==> r.error == ScanZigs(ch, ZigInputs(entries, exercises)).error
      ensures r.Ok? ==>
                && c == old(c) + NamesOf(entries, CFile)
                && cpp == old(cpp) + NamesOf(entries, CppFile)
                && rs == old(rs) + NamesOf(entries, RsFile)
                && zig == old(zig) + ScanZigs(ch, ZigInputs(entries, exercises)).value
    {
      var later := if exercises.Some? then ExerciseCandidates(exercises.value) else [];
      assert ZigInputs(entries, exercises) == ZigCandidates(entries) + later;
      r := SearchChapter(ch, entries, later);
      if r.Err? {
        return;
      }
      if exercises.None? {
        assert ScanZigs(ch, later) == Ok([]) && zig + [] == zig;
        return;
      }
      r := SearchExercises(ch, exercises.value);
    }

    /** The loop over the chapter directory; `later` are the candidates scanned after it. */
    method SearchChapter(ch: string, entries: seq<Entry>, later: seq<Entry>) returns (r: Result<(), string>)
      modifies this
      ensures Prepend(old(zig), ScanZigs(ch, ZigCandidates(entries) + later)) ==
                if r.Err? then Err(r.error) else Prepend(zig, ScanZigs(ch, later))
      ensures r.Ok? ==>
                && c == old(c) + NamesOf(entries, CFile)
                && cpp == old(cpp) + NamesOf(entries, CppFile)
                && rs == old(rs) + NamesOf(entries, RsFile)
    {
      ghost var goal := Prepend(old(zig), ScanZigs(ch, ZigCandidates(entries) + later));
      var i := 0;
      while i < |entries|
        invariant 0 <= i <= |entries|
        invariant old(c) + NamesOf(entries, CFile) == c + NamesOf(entries[i..], CFile)
        invariant old(cpp) + NamesOf(entries, CppFile) == cpp + NamesOf(entries[i..], CppFile)
        invariant old(rs) + NamesOf(entries, RsFile) == rs + NamesOf(entries[i..], RsFile)
        invariant goal == Prepend(zig, ScanZigs(ch, ZigCandidates(entries[i..]) + later))
      {
        ghost var c0, cpp0, rs0, zig0 := c, cpp, rs, zig;
        var pushed := PushEntry(ch, entries[i]);
        NamesStep(entries, i, CFile, c0);
        NamesStep(entries, i, CppFile, cpp0);
        NamesStep(entries, i, RsFile, rs0);
        ZigStep(ch, entries, i, later);
        if pushed.Err? {
          return pushed;
        }
        PrependTwice(zig0, ScanZigs(ch, ZigIf(entries[i])).value, ScanZigs(ch, ZigCandidates(entries[i + 1..]) + later));
        i := i + 1;
      }
      assert entries[i..] == [];
      assert ZigCandidates(entries[i..]) + later == later;
      r := Ok(());
    }

    /** The loop over the `exercises` directory. */
    method SearchExercises(ch: string, ex: seq<Entry>) returns (r: Result<(), string>)
      modifies this
      ensures Prepend(old(zig), ScanZigs(ch, ExerciseCandidates(ex))) ==
                if r.Err? then Err(r.error) else Ok(zig)
      ensures c == old(c) && cpp == old(cpp) && rs == old(rs)
    {
      ghost var goal := Prepend(old(zig), ScanZigs(ch, ExerciseCandidates(ex)));
      var j := 0;
      while j < |ex|
        invariant 0 <= j <= |ex|
        invariant goal == Prepend(zig, ScanZigs(ch, ExerciseCandidates(ex[j..])))
        invariant c == old(c) && cpp == old(cpp) && rs == old(rs)
      {
        var fileName := ex[j].name;
        ExerciseStep(ch, ex, j);
        if Contains(fileName, "zig") {
          var name := "exercises/" + fileName;
          var z := NewZig(ch, name, ex[j].node);
          if z.Err? {
            return Err(z.error);
          }
          PrependTwice(zig, [z.value], ScanZigs(ch, ExerciseCandidates(ex[j + 1..])));
          zig := zig + [z.value];
        }
        j := j + 1;
      }
      assert ex[j..] == [];
      assert zig + [] == zig;
      r := Ok(());
    }

    /**
     * One iteration of `search`'s loop over the chapter: the entry goes on the
     * list its extension selects, or nowhere; a Zig file goes through `Zig::new`.
     */
    method PushEntry(ch: string, entry: Entry) returns (r: Result<(), string>)
      modifies this
      ensures c == old(c) + NameIf(entry, CFile)
      ensures cpp == old(cpp) + NameIf(entry, CppFile)
      ensures rs == old(rs) + NameIf(entry, RsFile)
      ensures r.Ok? <==> ScanZigs(ch, ZigIf(entry)).Ok?
      ensures r.Err? ==> r.error == ScanZigs(ch, ZigIf(entry)).error
      ensures r.Ok? ==> zig == old(zig) + ScanZigs(ch, ZigIf(entry)).value
    {
      r := Ok(());
      // `KindOf` is the extension match together with the "extern" check
      match KindOf(entry.name) {
        case None =>
        case Some(CFile) => c := c + [entry.name];
        case Some(CppFile) => cpp := cpp + [entry.name];
        case Some(RsFile) => rs := rs + [entry.name];
        case Some(ZigFile) =>
          var z := NewZig(ch, entry.name, entry.node);
          assert [entry][1..] == [];
          if z.Err? {
            return Err(z.error);
          }
          zig := zig + [z.value];
      }
    }
  }

  /** What one more chapter entry contributes to the list for `k`. */
  lemma NamesStep(entries: seq<Entry>, i: nat, k: Kind, acc: seq<string>)
    requires i < |entries|
    ensures acc + NamesOf(entries[i..], k) == (acc + NameIf(entries[i], k)) + NamesOf(entries[i + 1..], k)
  {
    assert entries[i..][0] == entries[i] && entries[i..][1..] == entries[i + 1..];
    var n := NameIf(entries[i], k);
    var rest := NamesOf(entries[i + 1..], k);
    assert NamesOf(entries[i..], k) == n + rest;
    assert acc + (n + rest) == (acc + n) + rest;
  }

  /** What one more chapter entry contributes to the scan of Zig files. */
  lemma ZigStep(ch: string, entries: seq<Entry>, i: nat, later: seq<Entry>)
    requires i < |entries|
    ensures ScanZigs(ch, ZigCandidates(entries[i..]) + later) ==
              match ScanZigs(ch, ZigIf(entries[i]))
              case Err(p) => Err(p)
              case Ok(zs) => Prepend(zs, ScanZigs(ch, ZigCandidates(entries[i + 1..]) + later))
  {
    assert entries[i..][0] == entries[i] && entries[i..][1..] == entries[i + 1..];
    var z := ZigIf(entries[i]);
    var rest := ZigCandidates(entries[i + 1..]);
    assert ZigCandidates(entries[i..]) == z + rest;
    assert (z + rest) + later == z + (rest + later);
    ScanZigsAppend(ch, z, rest + later);
  }

  /** What one more exercise entry contributes to the scan. */
  lemma ExerciseStep(ch: string, ex: seq<Entry>, j: nat)
    requires j < |ex|
    ensures !Contains(ex[j].name, "zig") ==> ExerciseCandidates(ex[j..]) == ExerciseCandidates(ex[j + 1..])
    ensures Contains(ex[j].name, "zig") ==>
              ScanZigs(ch, ExerciseCandidates(ex[j..])) ==
                match NewZig(ch, "exercises/" + ex[j].name, ex[j].node)
                case Err(p) => Err(p)
                case Ok(z) => Prepend([z], ScanZigs(ch, ExerciseCandidates(ex[j + 1..])))
  {
    assert ex[j..][0] == ex[j] && ex[j..][1..] == ex[j + 1..];
    if Contains(ex[j].name, "zig") {
      var all := ExerciseCandidates(ex[j..]);
      assert all == [Entry("exercises/" + ex[j].name, ex[j].node)] + ExerciseCandidates(ex[j + 1..]);
      assert all[1..] == ExerciseCandidates(ex[j + 1..]);
    }
  }

  // ---------------------------------------------------------------- to_string

  /** The names of the Zig files of type `ty`, in list order. */
  function FilesOfType(zig: seq<Zig>, ty: ZigType): seq<string>
  {
    if zig == [] then []
    else
      var last := zig[|zig| - 1];
      FilesOfType(zig[..|zig| - 1], ty) + (if last.ty == ty then [last.file] else [])
  }

  function FileNames(zig: seq<Zig>): (r: seq<string>)
    ensures |r| == |zig|
  {
    if zig == [] then [] else FileNames(zig[..|zig| - 1]) + [zig[|zig| - 1].file]
  }

  /** Every Zig file is listed under exactly one of the three types. */
  lemma {:induction false} ZigPartition(zig: seq<Zig>)
    ensures multiset(FilesOfType(zig, Bin)) + multiset(FilesOfType(zig, Test)) + multiset(FilesOfType(zig, Proj))
            == multiset(FileNames(zig))
    decreases |zig|
  {
    if zig != [] {
      ZigPartition(zig[..|zig| - 1]);
    }
  }

  /** `NAME = files`, or no line at all when there are no files. */
  function VarLine(name: string, files: seq<string>): seq<string>
  {
    if files == [] then [] else [name + " = " + Join(files, " ")]
  }

  /** The lines of `to_string`, without their "\n": C, C++, Rust, then the three Zig types. */
  function VarLines(c: seq<string>, cpp: seq<string>, rs: seq<string>, zig: seq<Zig>): seq<string>
  {
    VarLine("C_FILES", c) + VarLine("CPP_FILES", cpp) + VarLine("RS_FILES", rs)
    + if zig == [] then [] else ZigLines(zig)
  }

  /** The three Zig lines, executables, tests, then projects. */
  function ZigLines(zig: seq<Zig>): seq<string>
  {
    VarLine("ZIG_EXE_FILES", FilesOfType(zig, Bin))
    + VarLine("ZIG_TEST_FILES", FilesOfType(zig, Test))
    + VarLine("ZIG_PROJ_FILES", FilesOfType(zig, Proj))
  }

  /** `MakeVar::to_string`: every line is newline-terminated, and there is no line for an empty list. */
  function VarsText(c: seq<string>, cpp: seq<string>, rs: seq<string>, zig: seq<Zig>): (r: string)
    ensures r == "" <==> c == [] && cpp == [] && rs == [] && zig == []
  {
    var lines := VarLines(c, cpp, rs, zig);
    VarLinesEmpty(c, cpp, rs, zig);
    assert lines != [] ==> |Terminated(lines, "\n")| > 0;
    Terminated(lines, "\n")
  }

  /** A non-empty Zig list always yields at least one of the three Zig lines. */
  lemma VarLinesEmpty(c: seq<string>, cpp: seq<string>, rs: seq<string>, zig: seq<Zig>)
    ensures VarLines(c, cpp, rs, zig) == [] <==> c == [] && cpp == [] && rs == [] && zig == []
  {
    if zig != [] {
      ZigPartition(zig);
      assert zig[|zig| - 1].file in multiset(FileNames(zig));
    }
  }

  ghost predicate NoNewline(names: seq<string>) {
    forall i :: 0 <= i < |names| ==> '\n' !in names[i]
  }

  lemma {:induction false} JoinFree(parts: seq<string>, sep: string, ch: char)
    requires forall i :: 0 <= i < |parts| ==> ch !in parts[i]
    requires ch !in sep
    ensures ch !in Join(parts, sep)
    decreases |parts|
  {
    if |parts| > 1 {
      JoinFree(parts[1..], sep, ch);
    }
  }

  lemma {:induction false} FilesOfTypeFree(zig: seq<Zig>, ty: ZigType)
    requires forall i :: 0 <= i < |zig| ==> '\n' !in zig[i].file
    ensures NoNewline(FilesOfType(zig, ty))
    decreases |zig|
  {
    if zig != [] {
      FilesOfTypeFree(zig[..|zig| - 1], ty);
    }
  }

  lemma VarLineFree(name: string, files: seq<string>)
    requires '\n' !in name && NoNewline(files)
    ensures NoNewline(VarLine(name, files))
  {
    if files != [] {
      JoinFree(files, " ", '\n');
    }
  }

  /**
   * When no file name contains a newline, splitting `to_string` at "\n" gives
   * back its lines, then the empty text after the final "\n".
   */
  lemma VarsTextLines(c: seq<string>, cpp: seq<string>, rs: seq<string>, zig: seq<Zig>)
    requires NoNewline(c) && NoNewline(cpp) && NoNewline(rs)
    requires forall i :: 0 <= i < |zig| ==> '\n' !in zig[i].file
    ensures SplitOn(VarsText(c, cpp, rs, zig), '\n') == VarLines(c, cpp, rs, zig) + [""]
  {
    VarLinesFree(c, cpp, rs, zig);
    SplitOnTerminated(VarLines(c, cpp, rs, zig), '\n');
  }

  lemma VarLinesFree(c: seq<string>, cpp: seq<string>, rs: seq<string>, zig: seq<Zig>)
    requires NoNewline(c) && NoNewline(cpp) && NoNewline(rs)
    requires forall i :: 0 <= i < |zig| ==> '\n' !in zig[i].file
    ensures NoNewline(VarLines(c, cpp, rs, zig))
  {
    var a := VarLine("C_FILES", c);
    var b := VarLine("CPP_FILES", cpp);
    var d := VarLine("RS_FILES", rs);
    VarLineFree("C_FILES", c);
    VarLineFree("CPP_FILES", cpp);
    VarLineFree("RS_FILES", rs);
    var z: seq<string> := if zig == [] then [] else ZigLines(zig);
    ZigLinesFree(zig);
    NoNewlineConcat(a, b);
    NoNewlineConcat(a + b, d);
    NoNewlineConcat(a + b + d, z);
  }

  lemma ZigLinesFree(zig: seq<Zig>)
    requires forall i :: 0 <= i < |zig| ==> '\n' !in zig[i].file
    ensures NoNewline(ZigLines(zig))
  {
    var e := VarLine("ZIG_EXE_FILES", FilesOfType(zig, Bin));
    var t := VarLine("ZIG_TEST_FILES", FilesOfType(zig, Test));
    var p := VarLine("ZIG_PROJ_FILES", FilesOfType(zig, Proj));
    FilesOfTypeFree(zig, Bin);
    FilesOfTypeFree(zig, Test);
    FilesOfTypeFree(zig, Proj);
    VarLineFree("ZIG_EXE_FILES", FilesOfType(zig, Bin));
    VarLineFree("ZIG_TEST_FILES", FilesOfType(zig, Test));
    VarLineFree("ZIG_PROJ_FILES", FilesOfType(zig, Proj));
    NoNewlineConcat(e, t);
    NoNewlineConcat(e + t, p);
  }

  lemma NoNewlineConcat(x: seq<string>, y: seq<string>)
    requires NoNewline(x) && NoNewline(y)
    ensures NoNewline(x + y)
  {
    forall i | 0 <= i < |x + y|
      ensures '\n' !in (x + y)[i]
    {
      if i >= |x| {
        assert (x + y)[i] == y[i - |x|];
      }
    }
  }

  /** A round trip: the file list can be read back from its variable line by splitting at spaces. */
  lemma VarLineFiles(name: string, files: seq<string>)
    requires files != []
    requires forall i :: 0 <= i < |files| ==> ' ' !in files[i]
    ensures |VarLine(name, files)| == 1
    ensures StartsWith(VarLine(name, files)[0], name + " = ")
    ensures SplitOn(VarLine(name, files)[0][|name| + 3..], ' ') == files
  {
    var line := name + " = " + Join(files, " ");
    assert line[..|name| + 3] == name + " = ";
    assert line[|name| + 3..] == Join(files, " ");
    SplitOnJoin(files, ' ');
  }

  // ---------------------------------------------------------------- Commands

  /** The compiler variables `Commands::new` adds. */
  const CC := "CC = clang"
  const CPP := "CC+ = g++"
  const RUSTC := "RUSTC = rustc"

  /** Which of the three compiler variables an entry of `Commands::variables` is. */
  datatype Compiler = Clang | Gpp | Rustc

  /** The line a compiler variable is written as. */
  function Declaration(v: Compiler): string {
    match v
    case Clang => CC
    case Gpp => CPP
    case Rustc => RUSTC
  }

  function Declarations(vs: seq<Compiler>): (r: seq<string>)
    ensures |r| == |vs|
  {
    seq(|vs|, i requires 0 <= i < |vs| => Declaration(vs[i]))
  }

  /** A rule: its `target: ` line and its recipe, whose lines each start with a tab. */
  datatype Command = Command(command: string, arg: string)

  /** `$(name)`, the expansion of a Make variable. */
  function Ref(name: string): string {
    "$(" + name + ")"
  }

  /**
   * A recipe line `$(foreach item, $(list), \` continued on a second,
   * doubly indented line by `body;)`.
   */
  function Loop(item: string, list: string, body: string): (r: string)
    ensures Contains(r, Ref(list)) && Contains(r, body)
  {
    var head := "\t$(foreach " + item + ", ";
    var mid := ", \\\n\t\t";
    var tail := mid + body + ";)";
    assert (head + Ref(list) + tail)[|head|..|head| + |Ref(list)|] == Ref(list);
    ContainsAt(head + Ref(list) + tail, Ref(list), |head|);
    ContainsAt(body, body, 0);
    ContainsConcat(mid, body, body);
    ContainsConcat(mid + body, ";)", body);
    ContainsConcat(head + Ref(list), tail, body);
    head + Ref(list) + tail
  }

  /**
   * The recipe of `Command::c`, `cpp` and `rust`: compile each file of the list
   * variable `files` with the compiler variable `compiler`, naming the output
   * after the source with `.ext` turned into `_ext`.
   */
  function CompileArg(files: string, ext: string, compiler: string): (r: string)
    ensures Contains(r, Ref(files)) && Contains(r, Ref(compiler))
  {
    var pre := "$(eval out=$(patsubst %." + ext + ",%_" + ext + ",$(file))) \\\n\t\t";
    var body := pre + Ref(compiler) + " $(file) -o $(out)";
    ContainsAt(Ref(compiler), Ref(compiler), 0);
    ContainsConcat(pre, Ref(compiler), Ref(compiler));
    ContainsConcat(pre + Ref(compiler), " $(file) -o $(out)", Ref(compiler));
    var r := Loop("file", files, body);
    ContainsTrans(r, body, Ref(compiler));
    r
  }

  const CCommand := Command("compile_c: ", CompileArg("C_FILES", "c", "CC"))
  const CppCommand := Command("compile_cpp: ", CompileArg("CPP_FILES", "cpp", "CC+"))
  const RustCommand := Command("compile_rs: ", CompileArg("RS_FILES", "rs", "RUSTC"))

  /**
   * The recipe of `Command::zig`: three lines, looping over the executables
   * (`zig build-exe`), the tests (`zig test`) and the projects (`zig build` in
   * the project directory) held by the variables `exe`, `test` and `proj`.
   */
  function ZigArg(exe: string, test: string, proj: string): (r: string)
    ensures Contains(r, Ref(exe)) && Contains(r, Ref(test)) && Contains(r, Ref(proj))
  {
    var bin := Loop("file", exe, "zig build-exe $(file)");
    var tst := Loop("file", test, "zig test $(file)");
    var prj := Loop("proj", proj, "cd $(proj) && zig build");
    assert [bin, tst, prj][1..] == [tst, prj] && [tst, prj][1..] == [prj];
    assert Join([prj], "\n") == prj;
    assert Join([tst, prj], "\n") == tst + "\n" + prj;
    assert Join([bin, tst, prj], "\n") == (bin + "\n") + (tst + "\n" + prj);
    ContainsConcat(tst + "\n", prj, Ref(proj));
    ContainsConcat(tst, "\n", Ref(test));
    ContainsConcat(tst + "\n", prj, Ref(test));
    ContainsConcat(bin, "\n", Ref(exe));
    ContainsConcat(bin + "\n", tst + "\n" + prj, Ref(exe));
    ContainsConcat(bin + "\n", tst + "\n" + prj, Ref(test));
    ContainsConcat(bin + "\n", tst + "\n" + prj, Ref(proj));
    Join([bin, tst, prj], "\n")
  }

  /** The target line of the Zig rule. */
  const ZigTarget := "compile_zig: "

  /** `Command::zig` as written: its loops expand `ZIG_EXE`, `ZIG_TEST` and `ZIG_PROJS`. */
  const ZigCommandAsWritten := Command(ZigTarget, ZigArg("ZIG_EXE", "ZIG_TEST", "ZIG_PROJS"))

  /** The Make variable `to_string` assigns the Zig files of one type to. */
  function ZigVarName(ty: ZigType): string {
    match ty
    case Bin => "ZIG_EXE_FILES"
    case Test => "ZIG_TEST_FILES"
    case Proj => "ZIG_PROJ_FILES"
  }

  /** `Command::zig` with its loops over the variables `to_string` assigns. */
  const ZigCommand := Command(ZigTarget, ZigArg(ZigVarName(Bin), ZigVarName(Test), ZigVarName(Proj)))

  /** The variable an assignment line `NAME = value` assigns: the text before its first space. */
  function AssignedName(line: string): string {
    line[..IndexOf(line, ' ')]
  }

  /** Some line of a Makefile assigns the variable `name`. */
  ghost predicate Defines(lines: seq<string>, name: string) {
    exists i :: 0 <= i < |lines| && AssignedName(lines[i]) == name
  }

  /** Every line assigns one of `names`. */
  ghost predicate AssignsOnly(lines: seq<string>, names: set<string>) {
    forall i :: 0 <= i < |lines| ==> AssignedName(lines[i]) in names
  }

  /** The six variables `to_string` can assign. */
  const VarNames: set<string> :=
    {"C_FILES", "CPP_FILES", "RS_FILES", "ZIG_EXE_FILES", "ZIG_TEST_FILES", "ZIG_PROJ_FILES"}

  lemma VarLineAssigns(name: string, files: seq<string>)
    requires ' ' !in name
    ensures forall i :: 0 <= i < |VarLine(name, files)| ==> AssignedName(VarLine(name, files)[i]) == name
  {
    if files != [] {
      var rest := "= " + Join(files, " ");
      assert name + " = " + Join(files, " ") == name + [' '] + rest;
      IndexOfAfter(name, ' ', rest);
      assert (name + [' '] + rest)[..|name|] == name;
    }
  }

  lemma AssignsOnlyConcat(x: seq<string>, y: seq<string>, names: set<string>)
    requires AssignsOnly(x, names) && AssignsOnly(y, names)
    ensures AssignsOnly(x + y, names)
  {
    forall i | 0 <= i < |x + y|
      ensures AssignedName((x + y)[i]) in names
    {
      if i >= |x| {
        assert (x + y)[i] == y[i - |x|];
      }
    }
  }

  /** Every line of `to_string` assigns one of its six variables. */
  lemma VarLinesAssign(c: seq<string>, cpp: seq<string>, rs: seq<string>, zig: seq<Zig>)
    ensures AssignsOnly(VarLines(c, cpp, rs, zig), VarNames)
  {
    VarLineAssigns("C_FILES", c);
    VarLineAssigns("CPP_FILES", cpp);
    VarLineAssigns("RS_FILES", rs);
    VarLineAssigns("ZIG_EXE_FILES", FilesOfType(zig, Bin));
    VarLineAssigns("ZIG_TEST_FILES", FilesOfType(zig, Test));
    VarLineAssigns("ZIG_PROJ_FILES", FilesOfType(zig, Proj));
    var e := VarLine("ZIG_EXE_FILES", FilesOfType(zig, Bin));
    var t := VarLine("ZIG_TEST_FILES", FilesOfType(zig, Test));
    var p := VarLine("ZIG_PROJ_FILES", FilesOfType(zig, Proj));
    AssignsOnlyConcat(e, t, VarNames);
    AssignsOnlyConcat(e + t, p, VarNames);
    var z: seq<string> := if zig == [] then [] else e + t + p;
    var a := VarLine("C_FILES", c);
    var b := VarLine("CPP_FILES", cpp);
    var d := VarLine("RS_FILES", rs);
    AssignsOnlyConcat(a, b, VarNames);
    AssignsOnlyConcat(a + b, d, VarNames);
    AssignsOnlyConcat(a + b + d, z, VarNames);
  }

  /**
   * Whatever the chapter holds, the Makefile `makegen` writes assigns none of
   * the variables the as-written `compile_zig` recipe loops over, so that
   * recipe compiles nothing.
   */
  lemma ZigCommandAsWrittenUndefined(c: seq<string>, cpp: seq<string>, rs: seq<string>, zig: seq<Zig>)
    ensures Contains(ZigCommandAsWritten.arg, Ref("ZIG_EXE"))
    ensures !Defines(VarLines(c, cpp, rs, zig), "ZIG_EXE")
    ensures !Defines(VarLines(c, cpp, rs, zig), "ZIG_TEST")
    ensures !Defines(VarLines(c, cpp, rs, zig), "ZIG_PROJS")
  {
    VarLinesAssign(c, cpp, rs, zig);
    assert "ZIG_EXE" !in VarNames && "ZIG_TEST" !in VarNames && "ZIG_PROJS" !in VarNames;
  }

  /**
   * With the corrected recipe, each Zig variable it loops over is assigned by
   * the same Makefile whenever there is a Zig file of that type.
   */
  lemma ZigCommandDefined(c: seq<string>, cpp: seq<string>, rs: seq<string>, zig: seq<Zig>, ty: ZigType)
    requires FilesOfType(zig, ty) != []
    ensures Contains(ZigCommand.arg, Ref(ZigVarName(ty)))
    ensures Defines(VarLines(c, cpp, rs, zig), ZigVarName(ty))
  {
    assert zig != [];
    var pre := VarLine("C_FILES", c) + VarLine("CPP_FILES", cpp) + VarLine("RS_FILES", rs);
    var e := VarLine("ZIG_EXE_FILES", FilesOfType(zig, Bin));
    var t := VarLine("ZIG_TEST_FILES", FilesOfType(zig, Test));
    var p := VarLine("ZIG_PROJ_FILES", FilesOfType(zig, Proj));
    var name := ZigVarName(ty);
    var own := VarLine(name, FilesOfType(zig, ty));
    VarLineAssigns(name, FilesOfType(zig, ty));
    assert AssignedName(own[0]) == name;
    assert Defines(own, name);
    match ty {
      case Bin =>
        DefinesLeft(e, t, name);
        DefinesLeft(e + t, p, name);
      case Test =>
        DefinesRight(e, t, name);
        DefinesLeft(e + t, p, name);
      case Proj =>
        DefinesRight(e + t, p, name);
    }
    DefinesRight(pre, e + t + p, name);
  }

  lemma DefinesLeft(x: seq<string>, y: seq<string>, name: string)
    requires Defines(x, name)
    ensures Defines(x + y, name)
  {
    var i :| 0 <= i < |x| && AssignedName(x[i]) == name;
    assert (x + y)[i] == x[i];
  }

  lemma DefinesRight(x: seq<string>, y: seq<string>, name: string)
    requires Defines(y, name)
    ensures Defines(x + y, name)
  {
    var i :| 0 <= i < |y| && AssignedName(y[i]) == name;
    assert (x + y)[|x| + i] == y[i];
  }

  /** `Commands`: the compiler variables and the rules of one Makefile. */
  datatype Commands = Commands(variables: seq<Compiler>, commands: seq<Command>)

  /** The rule that goes with a compiler variable. */
  function CommandFor(v: Compiler): Command {
    match v
    case Clang => CCommand
    case Gpp => CppCommand
    case Rustc => RustCommand
  }

  /** The position of a compiler variable in `Commands::new`. */
  function Rank(v: Compiler): nat {
    match v
    case Clang => 0
    case Gpp => 1
    case Rustc => 2
  }

  /** `[v]` when `cond` holds, else nothing: one `if !list.is_empty()` of `Commands::new`. */
  function Opt(cond: bool, v: Compiler): seq<Compiler> {
    if cond then [v] else []
  }

  /** The compiler variables `Commands::new` pushes: one per non-empty list, in the order C, C++, Rust. */
  function CompilerVariables(c: seq<string>, cpp: seq<string>, rs: seq<string>): seq<Compiler> {
    Opt(c != [], Clang) + Opt(cpp != [], Gpp) + Opt(rs != [], Rustc)
  }

  /** The rules pushed together with the variables, one per variable at the same position. */
  function RulesFor(vs: seq<Compiler>): (r: seq<Command>)
    ensures |r| == |vs|
  {
    seq(|vs|, i requires 0 <= i < |vs| => CommandFor(vs[i]))
  }

  /**
   * The shape `Commands::new` builds: a compiler variable and its rule for
   * each non-empty list among C, C++ and Rust, in that order, and `zigRule`
   * last, with no variable, when there are Zig files.
   */
  function CommandsWith(c: seq<string>, cpp: seq<string>, rs: seq<string>, zig: seq<Zig>, zigRule: Command): (r: Commands)
    ensures r.variables == CompilerVariables(c, cpp, rs)
    ensures |r.commands| == |r.variables| + (if zig == [] then 0 else 1)
    ensures forall i :: 0 <= i < |r.variables| ==> r.commands[i] == CommandFor(r.variables[i])
    ensures zig != [] ==> r.commands[|r.commands| - 1] == zigRule
  {
    var vs := CompilerVariables(c, cpp, rs);
    Commands(vs, RulesFor(vs) + (if zig != [] then [zigRule] else []))
  }

  /** `Commands::new` as written: the Zig rule it pushes is `Command::zig()`, `ZigCommandAsWritten`. */
  function NewCommands(c: seq<string>, cpp: seq<string>, rs: seq<string>, zig: seq<Zig>): (r: Commands)
    ensures r.variables == CompilerVariables(c, cpp, rs)
    ensures |r.commands| == |r.variables| + (if zig == [] then 0 else 1)
    ensures forall i :: 0 <= i < |r.variables| ==> r.commands[i] == CommandFor(r.variables[i])
    ensures zig != [] ==> r.commands[|r.commands| - 1] == ZigCommandAsWritten
  {
    CommandsWith(c, cpp, rs, zig, ZigCommandAsWritten)
  }

  /** `Commands::new` with the corrected Zig rule `ZigCommand`. */
  function NewCommandsFixed(c: seq<string>, cpp: seq<string>, rs: seq<string>, zig: seq<Zig>): (r: Commands)
    ensures r.variables == CompilerVariables(c, cpp, rs)
    ensures |r.commands| == |r.variables| + (if zig == [] then 0 else 1)
    ensures forall i :: 0 <= i < |r.variables| ==> r.commands[i] == CommandFor(r.variables[i])
    ensures zig != [] ==> r.commands[|r.commands| - 1] == ZigCommand
  {
    CommandsWith(c, cpp, rs, zig, ZigCommand)
  }

  /** The correction touches only the Zig rule: without Zig files both give the same commands. */
  lemma FixedChangesOnlyZigRule(c: seq<string>, cpp: seq<string>, rs: seq<string>, zig: seq<Zig>)
    ensures NewCommandsFixed(c, cpp, rs, zig).variables == NewCommands(c, cpp, rs, zig).variables
    ensures |NewCommandsFixed(c, cpp, rs, zig).commands| == |NewCommands(c, cpp, rs, zig).commands|
    ensures zig == [] ==> NewCommandsFixed(c, cpp, rs, zig) == NewCommands(c, cpp, rs, zig)
    ensures zig == [] ==> MakefileTextFixed(c, cpp, rs, zig) == MakefileText(c, cpp, rs, zig)
    ensures zig != [] ==> NewCommandsFixed(c, cpp, rs, zig).commands
                          == NewCommands(c, cpp, rs, zig).commands[.. |NewCommands(c, cpp, rs, zig).commands| - 1] + [ZigCommand]
  {
    var a, b := NewCommands(c, cpp, rs, zig), NewCommandsFixed(c, cpp, rs, zig);
    if zig == [] {
      assert a.commands == b.commands;
    } else {
      assert b.commands == a.commands[..|a.commands| - 1] + [ZigCommand];
    }
  }

  /** The Make variable that holds a compiler rule's file list. */
  function FilesVar(v: Compiler): string {
    match v
    case Clang => "C_FILES"
    case Gpp => "CPP_FILES"
    case Rustc => "RS_FILES"
  }

  /** The Make variable a compiler rule calls the compiler through. */
  function CompilerVar(v: Compiler): string {
    match v
    case Clang => "CC"
    case Gpp => "CC+"
    case Rustc => "RUSTC"
  }

  /**
   * Unlike the Zig rule, every C, C++ and Rust rule `Commands::new` emits
   * loops over a file list that `to_string` assigns in the same Makefile,
   * and calls a compiler variable that is declared in it.
   */
  lemma CompilerRuleDefined(c: seq<string>, cpp: seq<string>, rs: seq<string>, zig: seq<Zig>, v: Compiler)
    requires CommandFor(v) in NewCommands(c, cpp, rs, zig).commands
    ensures Contains(CommandFor(v).arg, Ref(FilesVar(v)))
    ensures Defines(VarLines(c, cpp, rs, zig), FilesVar(v))
    ensures Contains(CommandFor(v).arg, Ref(CompilerVar(v)))
    ensures Declaration(v) in Declarations(NewCommands(c, cpp, rs, zig).variables)
    ensures AssignedName(Declaration(v)) == CompilerVar(v)
  {
    var vs := NewCommands(c, cpp, rs, zig).variables;
    RuleHasVariable(c, cpp, rs, zig, ZigCommandAsWritten, v);
    var k :| 0 <= k < |vs| && vs[k] == v;
    assert Declarations(vs)[k] == Declaration(v);
    FilesVarDefined(c, cpp, rs, zig, v);
    CompilerRuleRefs(v);
  }

  /** A C, C++ or Rust rule is emitted only together with its compiler variable, whatever the Zig rule. */
  lemma RuleHasVariable(c: seq<string>, cpp: seq<string>, rs: seq<string>, zig: seq<Zig>, zigRule: Command, v: Compiler)
    requires zigRule.command == ZigTarget
    requires CommandFor(v) in CommandsWith(c, cpp, rs, zig, zigRule).commands
    ensures v in CompilerVariables(c, cpp, rs)
  {
    var cmds := CommandsWith(c, cpp, rs, zig, zigRule);
    var k :| 0 <= k < |cmds.commands| && cmds.commands[k] == CommandFor(v);
    CompilerTargetNotZig(v);
    if k < |cmds.variables| {
      assert cmds.commands[k] == CommandFor(cmds.variables[k]);
      assert cmds.variables[k] == v;
    } else {
      assert false;
    }
  }

  /** No compiler rule has the Zig rule's target. */
  lemma CompilerTargetNotZig(v: Compiler)
    ensures CommandFor(v).command != ZigTarget
  {
    assert ZigTarget[8] == 'z';
    match v {
      case Clang => assert CCommand.command[8] == 'c';
      case Gpp => assert CppCommand.command[8] == 'c';
      case Rustc => assert RustCommand.command[8] == 'r';
    }
  }

  /** A compiler variable is pushed only for a non-empty list, whose line `to_string` writes. */
  lemma FilesVarDefined(c: seq<string>, cpp: seq<string>, rs: seq<string>, zig: seq<Zig>, v: Compiler)
    requires v in CompilerVariables(c, cpp, rs)
    ensures Defines(VarLines(c, cpp, rs, zig), FilesVar(v))
  {
    CompilerVariablesOrdered(c, cpp, rs);
    var list := match v case Clang => c case Gpp => cpp case Rustc => rs;
    var own := VarLine(FilesVar(v), list);
    VarLineAssigns(FilesVar(v), list);
    assert AssignedName(own[0]) == FilesVar(v);
    assert Defines(own, FilesVar(v));
    var a, b, d := VarLine("C_FILES", c), VarLine("CPP_FILES", cpp), VarLine("RS_FILES", rs);
    var z: seq<string> := if zig == [] then [] else ZigLines(zig);
    match v {
      case Clang =>
        DefinesLeft(a, b, FilesVar(v));
        DefinesLeft(a + b, d, FilesVar(v));
      case Gpp =>
        DefinesRight(a, b, FilesVar(v));
        DefinesLeft(a + b, d, FilesVar(v));
      case Rustc =>
        DefinesRight(a + b, d, FilesVar(v));
    }
    DefinesLeft(a + b + d, z, FilesVar(v));
  }

  /** Each compiler rule loops over its file list, calls its compiler variable, and that variable's line declares it. */
  lemma CompilerRuleRefs(v: Compiler)
    ensures Contains(CommandFor(v).arg, Ref(FilesVar(v)))
    ensures Contains(CommandFor(v).arg, Ref(CompilerVar(v)))
    ensures AssignedName(Declaration(v)) == CompilerVar(v)
  {
    match v {
      case Clang => AssignedNameOf(CC, "CC", 2);
      case Gpp => AssignedNameOf(CPP, "CC+", 3);
      case Rustc => AssignedNameOf(RUSTC, "RUSTC", 5);
    }
  }

  /** An assignment line whose first space follows `name` assigns `name`. */
  lemma AssignedNameOf(line: string, name: string, n: nat)
    requires n == |name| && n < |line| && line[..n] == name && line[n] == ' ' && ' ' !in name
    ensures AssignedName(line) == name
  {
    assert line == name + line[n..];
    IndexOfAfter(name, ' ', line[n + 1..]);
    assert name + [' '] + line[n + 1..] == line;
  }

  /** The compiler variables are those of the non-empty lists, in the order C, C++, Rust. */
  lemma CompilerVariablesOrdered(c: seq<string>, cpp: seq<string>, rs: seq<string>)
    ensures var vs := CompilerVariables(c, cpp, rs);
            && (Clang in vs <==> c != []) && (Gpp in vs <==> cpp != []) && (Rustc in vs <==> rs != [])
            && forall i, j :: 0 <= i < j < |vs| ==> Rank(vs[i]) < Rank(vs[j])
  {
    OptsOrdered(c != [], cpp != [], rs != []);
  }

  lemma OptsOrdered(a: bool, b: bool, d: bool)
    ensures var vs := Opt(a, Clang) + Opt(b, Gpp) + Opt(d, Rustc);
            && (Clang in vs <==> a) && (Gpp in vs <==> b) && (Rustc in vs <==> d)
            && forall i, j :: 0 <= i < j < |vs| ==> Rank(vs[i]) < Rank(vs[j])
  {
    var vs := Opt(a, Clang) + Opt(b, Gpp) + Opt(d, Rustc);
    if a && b && d {
      assert vs == [Clang, Gpp, Rustc];
    } else if a && b {
      assert vs == [Clang, Gpp];
    } else if a && d {
      assert vs == [Clang, Rustc];
    } else if b && d {
      assert vs == [Gpp, Rustc];
    } else if a {
      assert vs == [Clang];
    } else if b {
      assert vs == [Gpp];
    } else if d {
      assert vs == [Rustc];
    } else {
      assert vs == [];
    }
  }

  /** `Command::to_string`: the target line, a newline, then the recipe. */
  function CommandText(cmd: Command): (r: string)
    ensures '\n' !in cmd.command ==> SplitOn(r, '\n')[0] == cmd.command
    ensures |r| > |cmd.command| && r[|cmd.command|] == '\n' && r[|cmd.command| + 1..] == cmd.arg
  {
    assert [cmd.command, cmd.arg][1..] == [cmd.arg];
    assert Join([cmd.command, cmd.arg], "\n") == cmd.command + ['\n'] + cmd.arg;
    SplitOnConcat(cmd.command, '\n', cmd.arg);
    if '\n' !in cmd.command then SplitOnFree(cmd.command, '\n'); Join([cmd.command, cmd.arg], "\n")
    else Join([cmd.command, cmd.arg], "\n")
  }

  function CommandTexts(cmds: seq<Command>): (r: seq<string>)
    ensures |r| == |cmds|
    ensures forall i :: 0 <= i < |cmds| ==> r[i] == CommandText(cmds[i])
  {
    if cmds == [] then [] else [CommandText(cmds[0])] + CommandTexts(cmds[1..])
  }

  /** `Commands::to_string`: the variables joined by "\n", a "\n", then the rules joined by "\n". */
  function CommandsText(cmds: Commands): string {
    Join([Join(Declarations(cmds.variables), "\n"), Join(CommandTexts(cmds.commands), "\n")], "\n")
  }

  /** When there are both variables and rules, the text is one newline-separated list of them. */
  lemma CommandsTextJoin(cmds: Commands)
    requires cmds.variables != [] && cmds.commands != []
    ensures CommandsText(cmds) == Join(Declarations(cmds.variables) + CommandTexts(cmds.commands), "\n")
  {
    var vs, cs := Join(Declarations(cmds.variables), "\n"), Join(CommandTexts(cmds.commands), "\n");
    assert [vs, cs][1..] == [cs];
    assert Join([cs], "\n") == cs;
    assert CommandsText(cmds) == vs + "\n" + cs;
    JoinAppend(Declarations(cmds.variables), CommandTexts(cmds.commands), "\n");
  }

  /** The text `main` writes to `<ch>/Makefile`: `to_string`, a "\n", then the commands. */
  function MakefileText(c: seq<string>, cpp: seq<string>, rs: seq<string>, zig: seq<Zig>): string {
    Join([VarsText(c, cpp, rs, zig), CommandsText(NewCommands(c, cpp, rs, zig))], "\n")
  }

  /** The Makefile text with the corrected Zig rule. */
  function MakefileTextFixed(c: seq<string>, cpp: seq<string>, rs: seq<string>, zig: seq<Zig>): string {
    Join([VarsText(c, cpp, rs, zig), CommandsText(NewCommandsFixed(c, cpp, rs, zig))], "\n")
  }

  /** A chapter with nothing to compile still gets a Makefile: two empty lines. */
  lemma EmptyMakefile()
    ensures MakefileText([], [], [], []) == "\n\n"
  {
    var cmds := NewCommands([], [], [], []);
    assert cmds.variables == [] && cmds.commands == [];
    assert CommandsText(cmds) == "\n";
    assert VarsText([], [], [], []) == "";
  }

  /**
   * One iteration of `main`'s loop over the chapters: search the chapter,
   * then build its Makefile text, or stop with the error `search` returned.
   */
  method ChapterMakefile(ch: string, entries: seq<Entry>, exercises: Option<seq<Entry>>) returns (r: Result<string, string>)
    ensures r.Ok? <==> ScanZigs(ch, ZigInputs(entries, exercises)).Ok?
    ensures r.Err? ==> r.error == ScanZigs(ch, ZigInputs(entries, exercises)).error
    ensures r.Ok? ==>
              r.value == MakefileText(NamesOf(entries, CFile), NamesOf(entries, CppFile), NamesOf(entries, RsFile),
                                      ScanZigs(ch, ZigInputs(entries, exercises)).value)
  {
    var makeVar := new MakeVar();
    var searched := makeVar.Search(ch, entries, exercises);
    if searched.Err? {
      return Err(searched.error);
    }
    assert makeVar.c == NamesOf(entries, CFile) && makeVar.cpp == NamesOf(entries, CppFile);
    assert makeVar.rs == NamesOf(entries, RsFile);
    assert makeVar.zig == ScanZigs(ch, ZigInputs(entries, exercises)).value;
    var commands := NewCommands(makeVar.c, makeVar.cpp, makeVar.rs, makeVar.zig);
    r := Ok(Join([VarsText(makeVar.c, makeVar.cpp, makeVar.rs, makeVar.zig), CommandsText(commands)], "\n"));
  }

  /** `ChapterMakefile` with the corrected Zig rule: the text `MakefileTextFixed` gives. */
  method ChapterMakefileFixed(ch: string, entries: seq<Entry>, exercises: Option<seq<Entry>>) returns (r: Result<string, string>)
    ensures r.Ok? <==> ScanZigs(ch, ZigInputs(entries, exercises)).Ok?
    ensures r.Err? ==> r.error == ScanZigs(ch, ZigInputs(entries, exercises)).error
    ensures r.Ok? ==>
              r.value == MakefileTextFixed(NamesOf(entries, CFile), NamesOf(entries, CppFile), NamesOf(entries, RsFile),
                                           ScanZigs(ch, ZigInputs(entries, exercises)).value)
  {
    var makeVar := new MakeVar();
    var searched := makeVar.Search(ch, entries, exercises);
    if searched.Err? {
      return Err(searched.error);
    }
    assert makeVar.c == NamesOf(entries, CFile) && makeVar.cpp == NamesOf(entries, CppFile);
    assert makeVar.rs == NamesOf(entries, RsFile);
    assert makeVar.zig == ScanZigs(ch, ZigInputs(entries, exercises)).value;
    var commands := NewCommandsFixed(makeVar.c, makeVar.cpp, makeVar.rs, makeVar.zig);
    r := Ok(Join([VarsText(makeVar.c, makeVar.cpp, makeVar.rs, makeVar.zig), CommandsText(commands)], "\n"));
  }

  /** A chapter's Makefile assigns `CC` exactly when the chapter has a C file `search` keeps. */
  lemma ChapterCompilesC(entries: seq<Entry>, cpp: seq<string>, rs: seq<string>, zig: seq<Zig>)
    ensures Clang in NewCommands(NamesOf(entries, CFile), cpp, rs, zig).variables <==>
              exists i :: 0 <= i < |entries| && KindOf(entries[i].name) == Some(CFile)
  {
    CompilerVariablesOrdered(NamesOf(entries, CFile), cpp, rs);
    if exists i :: 0 <= i < |entries| && KindOf(entries[i].name) == Some(CFile) {
      var i :| 0 <= i < |entries| && KindOf(entries[i].name) == Some(CFile);
      NamesOfMember(entries, CFile, entries[i].name);
    } else if NamesOf(entries, CFile) != [] {
      NamesOfMember(entries, CFile, NamesOf(entries, CFile)[0]);
    }
  }

  /**
   * A chapter's Makefile has a Zig rule exactly when the chapter has a Zig
   * candidate: the as-written rule in the text `makegen` writes, the
   * corrected one in the corrected text.
   */
  lemma ChapterCompilesZig(ch: string, entries: seq<Entry>, exercises: Option<seq<Entry>>, c: seq<string>, cpp: seq<string>, rs: seq<string>)
    requires ScanZigs(ch, ZigInputs(entries, exercises)).Ok?
    ensures var zig := ScanZigs(ch, ZigInputs(entries, exercises)).value;
            ZigCommand in NewCommandsFixed(c, cpp, rs, zig).commands <==> ZigInputs(entries, exercises) != []
    ensures var zig := ScanZigs(ch, ZigInputs(entries, exercises)).value;
            ZigCommandAsWritten in NewCommands(c, cpp, rs, zig).commands <==> ZigInputs(entries, exercises) != []
  {
    ScanZigsMeaning(ch, ZigInputs(entries, exercises));
    var zig := ScanZigs(ch, ZigInputs(entries, exercises)).value;
    ZigRuleIffZig(c, cpp, rs, zig, ZigCommand);
    ZigRuleIffZig(c, cpp, rs, zig, ZigCommandAsWritten);
  }

  /** A rule that is none of the compiler rules is among the commands exactly when there are Zig files. */
  lemma ZigRuleIffZig(c: seq<string>, cpp: seq<string>, rs: seq<string>, zig: seq<Zig>, zigRule: Command)
    requires zigRule.command == ZigTarget
    ensures zigRule in CommandsWith(c, cpp, rs, zig, zigRule).commands <==> zig != []
  {
    var cmds := CommandsWith(c, cpp, rs, zig, zigRule);
    if zig == [] {
      forall k | 0 <= k < |cmds.commands|
        ensures cmds.commands[k] != zigRule
      {
        assert cmds.commands[k] == CommandFor(cmds.variables[k]);
        CompilerTargetNotZig(cmds.variables[k]);
      }
    }
  }
}
