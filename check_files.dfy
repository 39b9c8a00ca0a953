/**
 * check_files.py: walks a directory tree, skipping every `zig-cache`
 * directory, classifies each `.zig` file by its content, and lists the
 * binaries (files with `fn main`) and the tests (files mentioning `test`
 * without `fn main`). The tree, the file contents and the existence test
 * for `exercises/...` paths are inputs.
 */
module CheckFiles {
  import opened Wrappers
  import opened Text

  // ---------------------------------------------------------------- detect_file_type

  datatype FileType = NotFound | Binary | Test | Unknown

  /**
   * `detect_file_type` on what reading the file gives: `None` when the path
   * does not exist, otherwise its text.
   */
  function DetectFileType(content: Option<string>): (t: FileType)
    ensures t == NotFound <==> content.None?
    ensures content.Some? ==> (t == Binary <==> Contains(content.value, "fn main"))
    ensures content.Some? ==> (t == Test <==> !Contains(content.value, "fn main") && Contains(content.value, "test"))
    ensures content.Some? ==> (t == Unknown <==> !Contains(content.value, "fn main") && !Contains(content.value, "test"))
  {
    match content
    case None => NotFound
    case Some(text) =>
      if Contains(text, "fn main") then Binary
      else if Contains(text, "test") && !Contains(text, "fn main") then Test
      else Unknown
  }

  /** A file that mentions both `fn main` and `test` is a binary, whatever else it holds. */
  lemma MainWinsOverTest(a: string, b: string)
    ensures DetectFileType(Some(a + "fn main" + b)) == Binary
    ensures DetectFileType(Some(a + "test" + b)) != Unknown
  {
    ContainsAt(a + "fn main" + b, "fn main", |a|);
    ContainsAt(a + "test" + b, "test", |a|);
  }

  // ---------------------------------------------------------------- the walk

  /** A file as the walk lists it: its name, and its text (`None` when it cannot be found, as for a dangling link). */
  datatype FileNode = FileNode(name: string, content: Option<string>)

  /** A directory: the files and the sub-directories `os.walk` lists in it, in listing order. */
  datatype Node = Node(files: seq<FileNode>, dirs: seq<Sub>)

  datatype Sub = Sub(name: string, node: Node)

  /** One `(root, dirs, files)` triple of the walk, `root` given by its components below the base directory. */
  datatype Step = Step(path: seq<string>, files: seq<FileNode>)

  /**
   * `os.walk` top-down with `dirs[:]` cut down to the names other than
   * `zig-cache`: a directory's own step, then the walks of its remaining
   * sub-directories in order.
   */
  function Walk(n: Node, path: seq<string>): seq<Step>
    decreases n, |n.dirs| + 1
  {
    [Step(path, n.files)] + SubWalks(n, 0, path)
  }

  function SubWalks(n: Node, i: nat, path: seq<string>): seq<Step>
    requires i <= |n.dirs|
    decreases n, |n.dirs| - i
  {
    if i == |n.dirs| then []
    else
      var d := n.dirs[i];
      assert d in n.dirs;
      (if d.name == "zig-cache" then [] else Walk(d.node, path + [d.name])) + SubWalks(n, i + 1, path)
  }

  /** No step lies in or below a `zig-cache` directory, and every step lies below the directory walked. */
  lemma {:induction false} WalkPruned(n: Node, path: seq<string>)
    requires "zig-cache" !in path
    ensures forall k :: 0 <= k < |Walk(n, path)| ==> "zig-cache" !in Walk(n, path)[k].path && path <= Walk(n, path)[k].path
    decreases n, |n.dirs| + 1
  {
    SubWalksPruned(n, 0, path);
  }

  lemma {:induction false} SubWalksPruned(n: Node, i: nat, path: seq<string>)
    requires i <= |n.dirs| && "zig-cache" !in path
    ensures forall k :: 0 <= k < |SubWalks(n, i, path)| ==> "zig-cache" !in SubWalks(n, i, path)[k].path && path <= SubWalks(n, i, path)[k].path
    decreases n, |n.dirs| - i
  {
    if i < |n.dirs| {
      var d := n.dirs[i];
      assert d in n.dirs;
      SubWalksPruned(n, i + 1, path);
      if d.name != "zig-cache" {
        var child := path + [d.name];
        WalkPruned(d.node, child);
        forall k | 0 <= k < |Walk(d.node, child)|
          ensures path <= Walk(d.node, child)[k].path
        {
          assert path <= child;
        }
      }
    }
  }

  // ---------------------------------------------------------------- paths

  /** `os.path.join(a, b)` on POSIX: an absolute `b` replaces `a`; otherwise one '/' between them. */
  function PathJoin(a: string, b: string): string {
    if StartsWith(b, "/") then b
    else if a == [] || EndsWith(a, "/") then a + b
    else a + "/" + b
  }

  lemma PathJoinEndsWith(a: string, b: string)
    ensures EndsWith(PathJoin(a, b), b)
  {
    var r := PathJoin(a, b);
    assert r[|r| - |b|..] == b;
  }

  /** `os.path.relpath(os.path.join(root, file), base_directory)`: the components below the base joined by '/'. */
  function RelPath(path: seq<string>, name: string): string {
    Join(path + [name], "/")
  }

  lemma RelPathEndsWith(path: seq<string>, name: string)
    ensures EndsWith(RelPath(path, name), name)
  {
    var parts := path + [name];
    JoinAsTerminated(parts, "/");
    var r := RelPath(path, name);
    assert r == Terminated(parts[..|parts| - 1], "/") + name;
    assert r[|r| - |name|..] == name;
  }

  /** `os.path.join(base_directory, "exercises", file_path)`. */
  function ExercisesPath(base: string, rel: string): string {
    PathJoin(PathJoin(base, "exercises"), rel)
  }

  /** `file_path_with_exercise`: the `exercises` path when it exists, else the relative path. */
  function Listed(base: string, present: string -> bool, path: seq<string>, name: string): string {
    var rel := RelPath(path, name);
    if present(ExercisesPath(base, rel)) then ExercisesPath(base, rel) else rel
  }

  /** Either way the listed path ends with the file's own name. */
  lemma ListedEndsWithName(base: string, present: string -> bool, path: seq<string>, name: string)
    ensures EndsWith(Listed(base, present, path, name), name)
  {
    var rel := RelPath(path, name);
    RelPathEndsWith(path, name);
    PathJoinEndsWith(PathJoin(base, "exercises"), rel);
    EndsWithTrans(ExercisesPath(base, rel), rel, name);
  }

  lemma EndsWithTrans(a: string, b: string, c: string)
    requires EndsWith(a, b) && EndsWith(b, c)
    ensures EndsWith(a, c)
  {
    assert a[|a| - |c|..] == b[|b| - |c|..];
  }

  // ---------------------------------------------------------------- process_directory

  /** What one file adds to the list of type `t`: its listed path if it is a `.zig` file of that type. */
  function Pick(base: string, present: string -> bool, path: seq<string>, f: FileNode, t: FileType): seq<string> {
    if EndsWith(f.name, ".zig") && DetectFileType(f.content) == t then [Listed(base, present, path, f.name)] else []
  }

  /** The `.zig` files of one step with type `t`, as listed, in listing order. */
  function Picks(base: string, present: string -> bool, path: seq<string>, files: seq<FileNode>, t: FileType): seq<string>
    decreases |files|
  {
    if files == [] then []
    else Picks(base, present, path, files[..|files| - 1], t) + Pick(base, present, path, files[|files| - 1], t)
  }

  /** The `.zig` files of the whole walk with type `t`, in walk order. */
  function AllPicks(base: string, present: string -> bool, steps: seq<Step>, t: FileType): seq<string>
    decreases |steps|
  {
    if steps == [] then []
    else
      var s := steps[|steps| - 1];
      AllPicks(base, present, steps[..|steps| - 1], t) + Picks(base, present, s.path, s.files, t)
  }

  /** The body of the inner loop of `process_directory`: one file goes to one list or to neither. */
  method ClassifyFile(base: string, present: string -> bool, path: seq<string>, file: FileNode, binary0: seq<string>, tests0: seq<string>)
    returns (binary: seq<string>, tests: seq<string>)
    ensures binary == binary0 + Pick(base, present, path, file, Binary)
    ensures tests == tests0 + Pick(base, present, path, file, Test)
  {
    binary, tests := binary0, tests0;
    if EndsWith(file.name, ".zig") {
      var filePath := RelPath(path, file.name);
      var exercisesPath := ExercisesPath(base, filePath);
      var withExercise := if present(exercisesPath) then exercisesPath else filePath;
      var fileType := DetectFileType(file.content);
      if fileType == Binary {
        binary := binary + [withExercise];
      } else if fileType == Test {
        tests := tests + [withExercise];
      }
    }
  }

  lemma PicksSnoc(base: string, present: string -> bool, path: seq<string>, files: seq<FileNode>, i: nat, t: FileType)
    requires i < |files|
    ensures Picks(base, present, path, files[..i + 1], t) == Picks(base, present, path, files[..i], t) + Pick(base, present, path, files[i], t)
  {
    assert files[..i + 1][..i] == files[..i];
  }

  /** The inner loop of `process_directory`: the files of one `(root, dirs, files)` triple. */
  method ClassifyStep(base: string, present: string -> bool, step: Step, binary0: seq<string>, tests0: seq<string>)
    returns (binary: seq<string>, tests: seq<string>)
    ensures binary == binary0 + Picks(base, present, step.path, step.files, Binary)
    ensures tests == tests0 + Picks(base, present, step.path, step.files, Test)
  {
    binary, tests := binary0, tests0;
    var files := step.files;
    for i := 0 to |files|
      invariant binary == binary0 + Picks(base, present, step.path, files[..i], Binary)
      invariant tests == tests0 + Picks(base, present, step.path, files[..i], Test)
    {
      PicksSnoc(base, present, step.path, files, i, Binary);
      PicksSnoc(base, present, step.path, files, i, Test);
      AppendAssoc(binary0, Picks(base, present, step.path, files[..i], Binary), Pick(base, present, step.path, files[i], Binary));
      AppendAssoc(tests0, Picks(base, present, step.path, files[..i], Test), Pick(base, present, step.path, files[i], Test));
      binary, tests := ClassifyFile(base, present, step.path, files[i], binary, tests);
    }
    assert files[..|files|] == files;
  }

  /**
   * `process_directory`: the binaries and the tests of the pruned walk, each
   * list in the order the walk meets them.
   */
  method ProcessDirectory(base: string, tree: Node, present: string -> bool) returns (binary: seq<string>, tests: seq<string>)
    ensures binary == AllPicks(base, present, Walk(tree, []), Binary)
    ensures tests == AllPicks(base, present, Walk(tree, []), Test)
  {
    var steps := Walk(tree, []);
    binary, tests := [], [];
    for k := 0 to |steps|
      invariant binary == AllPicks(base, present, steps[..k], Binary)
      invariant tests == AllPicks(base, present, steps[..k], Test)
    {
      assert steps[..k + 1][..k] == steps[..k];
      assert AllPicks(base, present, steps[..k + 1], Binary) == binary + Picks(base, present, steps[k].path, steps[k].files, Binary);
      assert AllPicks(base, present, steps[..k + 1], Test) == tests + Picks(base, present, steps[k].path, steps[k].files, Test);
      binary, tests := ClassifyStep(base, present, steps[k], binary, tests);
    }
    assert steps[..|steps|] == steps;
  }

  // ---------------------------------------------------------------- what the lists hold

  /** The number of `.zig` files among `files`. */
  function ZigCount(files: seq<FileNode>): nat
    decreases |files|
  {
    if files == [] then 0
    else ZigCount(files[..|files| - 1]) + (if EndsWith(files[|files| - 1].name, ".zig") then 1 else 0)
  }

  function AllZigCount(steps: seq<Step>): nat
    decreases |steps|
  {
    if steps == [] then 0 else AllZigCount(steps[..|steps| - 1]) + ZigCount(steps[|steps| - 1].files)
  }

  /**
   * Every `.zig` file gets exactly one of the four types: the binaries and
   * the tests are disjoint selections, and the files of the other two types
   * are the ones left out of both lists.
   */
  lemma {:induction false} PicksPartition(base: string, present: string -> bool, path: seq<string>, files: seq<FileNode>)
    ensures |Picks(base, present, path, files, Binary)| + |Picks(base, present, path, files, Test)|
          + |Picks(base, present, path, files, Unknown)| + |Picks(base, present, path, files, NotFound)| == ZigCount(files)
    decreases |files|
  {
    if files != [] {
      PicksPartition(base, present, path, files[..|files| - 1]);
    }
  }

  lemma {:induction false} AllPicksPartition(base: string, present: string -> bool, steps: seq<Step>)
    ensures |AllPicks(base, present, steps, Binary)| + |AllPicks(base, present, steps, Test)|
          + |AllPicks(base, present, steps, Unknown)| + |AllPicks(base, present, steps, NotFound)| == AllZigCount(steps)
    decreases |steps|
  {
    if steps != [] {
      var s := steps[|steps| - 1];
      AllPicksPartition(base, present, steps[..|steps| - 1]);
      PicksPartition(base, present, s.path, s.files);
    }
  }

  /** Only `.zig` files are listed: every listed path ends in `.zig`. */
  lemma {:induction false} PicksAreZig(base: string, present: string -> bool, path: seq<string>, files: seq<FileNode>, t: FileType)
    ensures forall k :: 0 <= k < |Picks(base, present, path, files, t)| ==> EndsWith(Picks(base, present, path, files, t)[k], ".zig")
    decreases |files|
  {
    if files != [] {
      var f := files[|files| - 1];
      PicksAreZig(base, present, path, files[..|files| - 1], t);
      if EndsWith(f.name, ".zig") {
        ListedEndsWithName(base, present, path, f.name);
        EndsWithTrans(Listed(base, present, path, f.name), f.name, ".zig");
      }
    }
  }

  lemma {:induction false} AllPicksAreZig(base: string, present: string -> bool, steps: seq<Step>, t: FileType)
    ensures forall k :: 0 <= k < |AllPicks(base, present, steps, t)| ==> EndsWith(AllPicks(base, present, steps, t)[k], ".zig")
    decreases |steps|
  {
    if steps != [] {
      var s := steps[|steps| - 1];
      AllPicksAreZig(base, present, steps[..|steps| - 1], t);
      PicksAreZig(base, present, s.path, s.files, t);
    }
  }

  /** A file inside a pruned `zig-cache` directory is never classified, whatever it holds. */
  lemma ZigCacheSkipped(files: seq<FileNode>, cache: Node, rest: seq<Sub>, path: seq<string>)
    ensures Walk(Node(files, [Sub("zig-cache", cache)] + rest), path) == Walk(Node(files, rest), path)
  {
    var n := Node(files, [Sub("zig-cache", cache)] + rest);
    var m := Node(files, rest);
    SubWalksShift(n, m, 1, path);
  }

  lemma {:induction false} SubWalksShift(n: Node, m: Node, i: nat, path: seq<string>)
    requires 1 <= i <= |n.dirs| && n.dirs[1..] == m.dirs && n.dirs[0].name == "zig-cache"
    ensures SubWalks(n, i, path) == SubWalks(m, i - 1, path)
    ensures SubWalks(n, 0, path) == SubWalks(n, 1, path)
    decreases |n.dirs| - i
  {
    if i < |n.dirs| {
      assert n.dirs[i] == m.dirs[i - 1];
      SubWalksShift(n, m, i + 1, path);
    }
  }

  // ---------------------------------------------------------------- main

  /** The script's standard output and exit status for the command line `args` (`sys.argv`). */
  method Run(args: seq<string>, tree: Node, present: string -> bool) returns (out: seq<string>, status: int)
    ensures |args| != 2 ==> out == ["Usage: python check_files.py <base_directory>"] && status == 1
    ensures |args| == 2 ==> status == 0 && out == ["\nBinary Files:", Join(AllPicks(args[1], present, Walk(tree, []), Binary), " "),
                                                   "\nTest Files:", Join(AllPicks(args[1], present, Walk(tree, []), Test), " ")]
  {
    if |args| != 2 {
      return ["Usage: python check_files.py <base_directory>"], 1;
    }
    var base := args[1];
    var binary, tests := ProcessDirectory(base, tree, present);
    out := ["\nBinary Files:", Join(binary, " "), "\nTest Files:", Join(tests, " ")];
    status := 0;
  }
}
