/**
 * ch_make_help.rs: the earlier, single-chapter helper that prints the Makefile
 * variables of one chapter. Its `search` has no "extern" filter and no
 * `exercises` scan, its Zig files are executables or tests only, and its
 * `to_string` always prints all five variables.
 *
 * The chapter directory is given as its entry sequence in `read_dir` order.
 */
module ChMakeHelp {
  import opened Wrappers
  import opened Text
  import opened Fs

  datatype ZigType = Bin | Test

  datatype Zig = Zig(file: string, ty: ZigType)

  /**
   * `Zig::new(ch, fileName)`: the file is read; it is an executable when its
   * text contains "main" and a test otherwise. Reading a directory or an
   * unreadable file fails, and the failure is reported with its path.
   */
  function NewZig(ch: string, fileName: string, node: Node): (r: Result<Zig, string>)
    ensures r.Ok? <==> node.File?
    ensures r.Err? ==> r.error == ch + "/" + fileName
    ensures r.Ok? ==> r.value.file == fileName
    ensures r.Ok? ==> (r.value.ty == Bin <==> Contains(node.content, "main"))
  {
    match node
    case File(content) => Ok(Zig(fileName, if Contains(content, "main") then Bin else Test))
    case _ => Err(ch + "/" + fileName)
  }

  // ---------------------------------------------------------------- search

  /** The list `search` puts an entry in: by its extension alone, none for other extensions. */
  function KindOf(name: string): (k: Option<Kind>)
    ensures k.Some? <==> RustExtension(name).Some? && RustExtension(name).value in {"c", "cpp", "rs", "zig"}
    ensures k.Some? ==> RustExtension(name) == Some(ExtensionOf(k.value))
  {
    match RustExtension(name)
    case None => None
    case Some(ext) =>
      if ext == "c" then Some(CFile)
      else if ext == "cpp" then Some(CppFile)
      else if ext == "rs" then Some(RsFile)
      else if ext == "zig" then Some(ZigFile)
      else None
  }

  /** The name of `e` if it goes in the list for `k`. */
  function NameIf(e: Entry, k: Kind): seq<string>
  {
    if KindOf(e.name) == Some(k) then [e.name] else []
  }

  /** The names of kind `k` among `entries`, in listing order. */
  function NamesOf(entries: seq<Entry>, k: Kind): seq<string>
  {
    if entries == [] then [] else NameIf(entries[0], k) + NamesOf(entries[1..], k)
  }

  /** Each listed name comes from an entry of kind `k`, and every such entry is listed. */
  lemma {:induction false} NamesOfMember(entries: seq<Entry>, k: Kind, name: string)
    ensures name in NamesOf(entries, k) <==>
              KindOf(name) == Some(k) && exists i :: 0 <= i < |entries| && entries[i].name == name
    decreases |entries|
  {
    if entries != [] {
      var tail := entries[1..];
      NamesOfMember(tail, k, name);
      assert NamesOf(entries, k) == NameIf(entries[0], k) + NamesOf(tail, k);
      assert name in NameIf(entries[0], k) <==> KindOf(name) == Some(k) && entries[0].name == name;
      if exists i :: 0 <= i < |tail| && tail[i].name == name {
        var i :| 0 <= i < |tail| && tail[i].name == name;
        assert entries[i + 1].name == name;
      }
      if exists i :: 0 <= i < |entries| && entries[i].name == name {
        var i :| 0 <= i < |entries| && entries[i].name == name;
        if i > 0 {
          assert tail[i - 1].name == name;
        }
      }
    }
  }

  /** `e` if it is a Zig file. */
  function ZigIf(e: Entry): seq<Entry>
  {
    if KindOf(e.name) == Some(ZigFile) then [e] else []
  }

  /** The entries `Zig::new` is called on, in listing order. */
  function ZigCandidates(entries: seq<Entry>): seq<Entry>
  {
    if entries == [] then [] else ZigIf(entries[0]) + ZigCandidates(entries[1..])
  }

  /** `Zig::new` on each candidate in turn, stopping at the first failure. */
  function ScanZigs(ch: string, cands: seq<Entry>): Result<seq<Zig>, string>
  {
    if cands == [] then Ok([])
    else
      match NewZig(ch, cands[0].name, cands[0].node)
      case Err(p) => Err(p)
      case Ok(z) => Prepend([z], ScanZigs(ch, cands[1..]))
  }

  /** `done` followed by what a scan found, or the scan's failure. */
  function Prepend(done: seq<Zig>, r: Result<seq<Zig>, string>): Result<seq<Zig>, string>
  {
    match r
    case Err(p) => Err(p)
    case Ok(zs) => Ok(done + zs)
  }

  ghost predicate FirstNotFile(cands: seq<Entry>, i: int) {
    && 0 <= i < |cands|
    && !cands[i].node.File?
    && forall j :: 0 <= j < i ==> cands[j].node.File?
  }

  /**
   * The scan succeeds exactly when every candidate is a readable file, and then
   * holds one `Zig` per candidate; otherwise it reports the first other one.
   */
  lemma {:induction false} ScanZigsMeaning(ch: string, cands: seq<Entry>)
    ensures ScanZigs(ch, cands).Ok? <==> forall i :: 0 <= i < |cands| ==> cands[i].node.File?
    ensures ScanZigs(ch, cands).Ok? ==>
              && |ScanZigs(ch, cands).value| == |cands|
              && forall i :: 0 <= i < |cands| ==>
                   NewZig(ch, cands[i].name, cands[i].node) == Ok(ScanZigs(ch, cands).value[i])
    ensures ScanZigs(ch, cands).Err? ==>
              exists i :: FirstNotFile(cands, i) && ScanZigs(ch, cands).error == ch + "/" + cands[i].name
    decreases |cands|
  {
    if cands != [] {
      var tail := cands[1..];
      ScanZigsMeaning(ch, tail);
      var r := ScanZigs(ch, cands);
      if !cands[0].node.File? {
        assert FirstNotFile(cands, 0);
      } else {
        var z := NewZig(ch, cands[0].name, cands[0].node).value;
        match ScanZigs(ch, tail)
        case Err(p) =>
          var i :| FirstNotFile(tail, i) && p == ch + "/" + tail[i].name;
          assert FirstNotFile(cands, i + 1);
        case Ok(zs) =>
          assert r.value == [z] + zs;
          forall i | 0 <= i < |cands|
            ensures NewZig(ch, cands[i].name, cands[i].node) == Ok(r.value[i])
          {
            if i > 0 {
              assert cands[i] == tail[i - 1];
            }
          }
      }
    }
  }

  /** Prepending in two steps is prepending once. */
  lemma PrependTwice(a: seq<Zig>, b: seq<Zig>, r: Result<seq<Zig>, string>)
    ensures Prepend(a, Prepend(b, r)) == Prepend(a + b, r)
  {
    if r.Ok? {
      assert a + (b + r.value) == (a + b) + r.value;
    }
  }

  /** One more entry of the listing: its name, if any, goes after those collected so far. */
  lemma NamesStep(entries: seq<Entry>, i: nat, k: Kind, acc: seq<string>)
    requires i < |entries|
    ensures acc + NamesOf(entries[i..], k) == (acc + NameIf(entries[i], k)) + NamesOf(entries[i + 1..], k)
  {
    assert entries[i..][0] == entries[i] && entries[i..][1..] == entries[i + 1..];
  }

  /** One more entry of the listing: it is scanned before the rest. */
  lemma ZigStep(ch: string, entries: seq<Entry>, i: nat)
    requires i < |entries|
    ensures ScanZigs(ch, ZigCandidates(entries[i..])) ==
              match ScanZigs(ch, ZigIf(entries[i]))
              case Err(p) => Err(p)
              case Ok(zs) => Prepend(zs, ScanZigs(ch, ZigCandidates(entries[i + 1..])))
  {
    assert entries[i..][0] == entries[i] && entries[i..][1..] == entries[i + 1..];
    var rest := ZigCandidates(entries[i + 1..]);
    if KindOf(entries[i].name) == Some(ZigFile) {
      var e := entries[i];
      assert ZigCandidates(entries[i..]) == [e] + rest;
      assert ([e] + rest)[0] == e && ([e] + rest)[1..] == rest;
      assert [e][1..] == [];
      match NewZig(ch, e.name, e.node)
      case Err(_) =>
      case Ok(z) =>
        assert [z] + [] == [z];
        assert ScanZigs(ch, [e]) == Ok([z]);
    } else {
      assert ZigCandidates(entries[i..]) == rest;
      assert ScanZigs(ch, []) == Ok([]);
      if ScanZigs(ch, rest).Ok? {
        assert [] + ScanZigs(ch, rest).value == ScanZigs(ch, rest).value;
      }
    }
  }

  class MakeVar {
    var c: seq<string>
    var cpp: seq<string>
    var rs: seq<string>
    var zig: seq<Zig>

    /** `MakeVar::new`: four empty lists. */
    constructor ()
      ensures c == [] && cpp == [] && rs == [] && zig == []
    {
      c, cpp, rs, zig := [], [], [], [];
    }

    /**
     * `search(ch)`: pushes each entry onto the list of its extension. It fails
     * exactly when `Zig::new` fails on some `.zig` entry, with the first such
     * failure.
     */
    method Search(ch: string, entries: seq<Entry>) returns (r: Result<(), string>)
      modifies this
      ensures r.Ok? <==> ScanZigs(ch, ZigCandidates(entries)).Ok?
      ensures r.Err? ==> r.error == ScanZigs(ch, ZigCandidates(entries)).error
      ensures r.Ok? ==>
                && c == old(c) + NamesOf(entries, CFile)
                && cpp == old(cpp) + NamesOf(entries, CppFile)
                && rs == old(rs) + NamesOf(entries, RsFile)
                && zig == old(zig) + ScanZigs(ch, ZigCandidates(entries)).value
    {
      ghost var goal := Prepend(old(zig), ScanZigs(ch, ZigCandidates(entries)));
      var i := 0;
      while i < |entries|
        invariant 0 <= i <= |entries|
        invariant old(c) + NamesOf(entries, CFile) == c + NamesOf(entries[i..], CFile)
        invariant old(cpp) + NamesOf(entries, CppFile) == cpp + NamesOf(entries[i..], CppFile)
        invariant old(rs) + NamesOf(entries, RsFile) == rs + NamesOf(entries[i..], RsFile)
        invariant goal == Prepend(zig, ScanZigs(ch, ZigCandidates(entries[i..])))
      {
        ghost var c0, cpp0, rs0, zig0 := c, cpp, rs, zig;
        var pushed := PushEntry(ch, entries[i]);
        NamesStep(entries, i, CFile, c0);
        NamesStep(entries, i, CppFile, cpp0);
        NamesStep(entries, i, RsFile, rs0);
        ZigStep(ch, entries, i);
        if pushed.Err? {
          return pushed;
        }
        PrependTwice(zig0, ScanZigs(ch, ZigIf(entries[i])).value, ScanZigs(ch, ZigCandidates(entries[i + 1..])));
        i := i + 1;
      }
      assert entries[i..] == [];
      assert zig + [] == zig;
      r := Ok(());
    }

    /** One iteration of `search`: the `match` on the entry's extension. */
    method PushEntry(ch: string, entry: Entry) returns (r: Result<(), string>)
      modifies this
      ensures c == old(c) + NameIf(entry, CFile)
      ensures cpp == old(cpp) + NameIf(entry, CppFile)
      ensures rs == old(rs) + NameIf(entry, RsFile)
      ensures r.Ok? <==> ScanZigs(ch, ZigIf(entry)).Ok?
      ensures r.Err? ==> r.error == ScanZigs(ch, ZigIf(entry)).error
      ensures r.Ok? ==> zig == old(zig) + ScanZigs(ch, ZigIf(entry)).value
    {
      assert [entry][1..] == [];
      match KindOf(entry.name)
      case None =>
        // no extension, or one of no interest: `continue`
        r := Ok(());
      case Some(CFile) =>
        c := c + [entry.name];
        r := Ok(());
      case Some(CppFile) =>
        cpp := cpp + [entry.name];
        r := Ok(());
      case Some(RsFile) =>
        rs := rs + [entry.name];
        r := Ok(());
      case Some(ZigFile) =>
        var z := NewZig(ch, entry.name, entry.node);
        if z.Err? {
          return Err(z.error);
        }
        zig := zig + [z.value];
        r := Ok(());
    }
  }

  // ---------------------------------------------------------------- to_string

  /** The names of the Zig files of type `ty`, in list order. */
  function FilesOfType(zig: seq<Zig>, ty: ZigType): seq<string>
  {
    if zig == [] then []
    else
      var last := zig[|zig| - 1];
      FilesOfType(zig[..|zig| - 1], ty) + (if last.ty == ty then [last.file] else [])
  }

  function FileNames(zig: seq<Zig>): (r: seq<string>)
    ensures |r| == |zig|
  {
    if zig == [] then [] else FileNames(zig[..|zig| - 1]) + [zig[|zig| - 1].file]
  }

  /** Every Zig file is listed under exactly one of its two types. */
  lemma {:induction false} ZigPartition(zig: seq<Zig>)
    ensures multiset(FilesOfType(zig, Bin)) + multiset(FilesOfType(zig, Test)) == multiset(FileNames(zig))
    decreases |zig|
  {
    if zig != [] {
      ZigPartition(zig[..|zig| - 1]);
    }
  }

  /** The five variables, in the order `to_string` prints them, each `NAME = ` then the space-joined files. */
  function VarLines(c: seq<string>, cpp: seq<string>, rs: seq<string>, zig: seq<Zig>): seq<string>
  {
    [ "ZIG_EXE = " + Join(FilesOfType(zig, Bin), " "),
      "ZIG_TEST = " + Join(FilesOfType(zig, Test), " "),
      "RS = " + Join(rs, " "),
      "CPP = " + Join(cpp, " "),
      "C = " + Join(c, " ") ]
  }

  /** `MakeVar::to_string`: the five lines joined by "\n", with no final newline. */
  function VarsText(c: seq<string>, cpp: seq<string>, rs: seq<string>, zig: seq<Zig>): string
  {
    Join(VarLines(c, cpp, rs, zig), "\n")
  }

  ghost predicate NoNewline(names: seq<string>) {
    forall i :: 0 <= i < |names| ==> '\n' !in names[i]
  }

  lemma {:induction false} JoinFree(parts: seq<string>, sep: string, ch: char)
    requires forall i :: 0 <= i < |parts| ==> ch !in parts[i]
    requires ch !in sep
    ensures ch !in Join(parts, sep)
    decreases |parts|
  {
    if |parts| > 1 {
      JoinFree(parts[1..], sep, ch);
    }
  }

  lemma {:induction false} FilesOfTypeFree(zig: seq<Zig>, ty: ZigType)
    requires forall i :: 0 <= i < |zig| ==> '\n' !in zig[i].file
    ensures NoNewline(FilesOfType(zig, ty))
    decreases |zig|
  {
    if zig != [] {
      FilesOfTypeFree(zig[..|zig| - 1], ty);
    }
  }

  /**
   * When no file name contains a newline, the text splits into exactly the five
   * variable lines, whatever the lists hold.
   */
  lemma VarsTextLines(c: seq<string>, cpp: seq<string>, rs: seq<string>, zig: seq<Zig>)
    requires NoNewline(c) && NoNewline(cpp) && NoNewline(rs)
    requires forall i :: 0 <= i < |zig| ==> '\n' !in zig[i].file
    ensures |SplitOn(VarsText(c, cpp, rs, zig), '\n')| == 5
    ensures SplitOn(VarsText(c, cpp, rs, zig), '\n') == VarLines(c, cpp, rs, zig)
  {
    FilesOfTypeFree(zig, Bin);
    FilesOfTypeFree(zig, Test);
    JoinFree(FilesOfType(zig, Bin), " ", '\n');
    JoinFree(FilesOfType(zig, Test), " ", '\n');
    JoinFree(rs, " ", '\n');
    JoinFree(cpp, " ", '\n');
    JoinFree(c, " ", '\n');
    SplitOnJoin(VarLines(c, cpp, rs, zig), '\n');
  }

  /** An empty chapter still prints every variable, each with nothing after `= `. */
  lemma EmptyVarsText(c: seq<string>, cpp: seq<string>, rs: seq<string>, zig: seq<Zig>)
    requires c == [] && cpp == [] && rs == [] && zig == []
    ensures SplitOn(VarsText(c, cpp, rs, zig), '\n') == ["ZIG_EXE = ", "ZIG_TEST = ", "RS = ", "CPP = ", "C = "]
  {
    assert FilesOfType(zig, Bin) == [] && FilesOfType(zig, Test) == [];
    forall files: seq<string> | files == []
      ensures Join(files, " ") == ""
    {
    }
    forall name: string
      ensures name + "" == name
    {
    }
    VarsTextLines(c, cpp, rs, zig);
  }

  /**
   * `main` for chapter `ch`: search it and print its variables followed by a
   * newline, or stop with the error `search` returned.
   */
  method Output(ch: string, entries: seq<Entry>) returns (r: Result<string, string>)
    ensures r.Ok? <==> ScanZigs(ch, ZigCandidates(entries)).Ok?
    ensures r.Err? ==> r.error == ScanZigs(ch, ZigCandidates(entries)).error
    ensures r.Ok? ==>
              r.value == VarsText(NamesOf(entries, CFile), NamesOf(entries, CppFile), NamesOf(entries, RsFile),
                                  ScanZigs(ch, ZigCandidates(entries)).value) + "\n"
  {
    var makeVar := new MakeVar();
    var searched := makeVar.Search(ch, entries);
    if searched.Err? {
      return Err(searched.error);
    }
    assert makeVar.c == NamesOf(entries, CFile) && makeVar.cpp == NamesOf(entries, CppFile);
    assert makeVar.rs == NamesOf(entries, RsFile);
    assert makeVar.zig == ScanZigs(ch, ZigCandidates(entries)).value;
    r := Ok(VarsText(makeVar.c, makeVar.cpp, makeVar.rs, makeVar.zig) + "\n");
  }
}
