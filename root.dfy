/**
 * root.rs: the root Makefile. `root` lists the chapter directories, sorts
 * them, gives each chapter that has a Makefile a `compile_<ch>` rule running
 * that Makefile's `compile_*` targets, then adds `compile_all` and `clean`.
 *
 * The working directory is given as its entry sequence, and the chapter
 * Makefiles as a map from chapter name to what `<ch>/Makefile` denotes; a
 * chapter missing from the map has no Makefile.
 */
module Root {
  import opened Wrappers
  import opened Text
  import opened Fs
  import opened Sorting

  /** The `clean` rule that ends the root Makefile. */
  const CLEAN := "clean: \n\tfind ./*/ -type f -executable -exec rm {} \\;\n\trm -f ./*/*.o && rm -f ./*/exercises/*.o"

  // ---------------------------------------------------------------- chapters

  /** The name of `e` if it is a directory whose name contains "ch". */
  function ChapterIf(e: Entry): seq<string>
  {
    if IsDir(e) && Contains(e.name, "ch") then [e.name] else []
  }

  /** The `filter_map` over the directory listing, in listing order. */
  function ChapterNames(entries: seq<Entry>): seq<string>
  {
    if entries == [] then [] else ChapterIf(entries[0]) + ChapterNames(entries[1..])
  }

  /** Chapters are exactly the directories whose name contains "ch". */
  lemma {:induction false} ChapterNamesMember(entries: seq<Entry>, name: string)
    ensures name in ChapterNames(entries) <==>
              exists i :: 0 <= i < |entries| && entries[i].name == name && IsDir(entries[i]) && Contains(name, "ch")
    decreases |entries|
  {
    if entries != [] {
      var tail := entries[1..];
      ChapterNamesMember(tail, name);
      assert ChapterNames(entries) == ChapterIf(entries[0]) + ChapterNames(tail);
      if exists i :: 0 <= i < |tail| && tail[i].name == name && IsDir(tail[i]) && Contains(name, "ch") {
        var i :| 0 <= i < |tail| && tail[i].name == name && IsDir(tail[i]) && Contains(name, "ch");
        assert entries[i + 1] == tail[i];
      }
      if exists i :: 0 <= i < |entries| && entries[i].name == name && IsDir(entries[i]) && Contains(name, "ch") {
        var i :| 0 <= i < |entries| && entries[i].name == name && IsDir(entries[i]) && Contains(name, "ch");
        if i > 0 {
          assert tail[i - 1] == entries[i];
        }
      }
    }
  }

  /** `chapters` after `sort`: in ascending order, each chapter directory as often as it is listed. */
  function Chapters(entries: seq<Entry>): (r: seq<string>)
    ensures SortedStrings(r)
    ensures multiset(r) == multiset(ChapterNames(entries))
  {
    SortStrings(ChapterNames(entries))
  }

  /** A name is a chapter exactly when it is a listed directory whose name contains "ch". */
  lemma ChaptersMember(entries: seq<Entry>, name: string)
    ensures name in Chapters(entries) <==>
              exists i :: 0 <= i < |entries| && entries[i].name == name && IsDir(entries[i]) && Contains(name, "ch")
  {
    ChapterNamesMember(entries, name);
    assert name in Chapters(entries) <==> name in multiset(Chapters(entries));
    assert name in ChapterNames(entries) <==> name in multiset(ChapterNames(entries));
  }

  // ---------------------------------------------------------------- targets

  /** The target a Makefile line defines, if it starts with "compile_": the text before its first ':'. */
  function TargetIf(line: string): seq<string>
  {
    if StartsWith(line, "compile_") then [SplitOn(line, ':')[0]] else []
  }

  function TargetsOf(lines: seq<string>): seq<string>
  {
    if lines == [] then [] else TargetIf(lines[0]) + TargetsOf(lines[1..])
  }

  /** `compile_targets`: the targets of the Makefile's `compile_` lines, in file order. */
  function Targets(content: string): seq<string>
  {
    TargetsOf(Lines(content))
  }

  /** Each target is a `compile_` name with no ':' in it. */
  lemma {:induction false} TargetsShape(lines: seq<string>)
    ensures forall i :: 0 <= i < |TargetsOf(lines)| ==>
              StartsWith(TargetsOf(lines)[i], "compile_") && ':' !in TargetsOf(lines)[i]
    decreases |lines|
  {
    if lines != [] {
      TargetsShape(lines[1..]);
      var line := lines[0];
      if StartsWith(line, "compile_") {
        var k := IndexOf(line, ':');
        assert SplitOn(line, ':')[0] == line[..k];
        assert line[..k][..8] == line[..8];
      }
      var t := TargetIf(line);
      forall i | 0 <= i < |TargetsOf(lines)|
        ensures StartsWith(TargetsOf(lines)[i], "compile_") && ':' !in TargetsOf(lines)[i]
      {
        if i >= |t| {
          assert TargetsOf(lines)[i] == TargetsOf(lines[1..])[i - |t|];
        }
      }
    }
  }

  /** Targets keep file order: the targets of two runs of lines, one after the other. */
  lemma {:induction false} TargetsOfAppend(a: seq<string>, b: seq<string>)
    ensures TargetsOf(a + b) == TargetsOf(a) + TargetsOf(b)
    decreases |a|
  {
    if a == [] {
      assert a + b == b;
    } else {
      assert (a + b)[0] == a[0] && (a + b)[1..] == a[1..] + b;
      TargetsOfAppend(a[1..], b);
      var t := TargetIf(a[0]);
      assert t + (TargetsOf(a[1..]) + TargetsOf(b)) == (t + TargetsOf(a[1..])) + TargetsOf(b);
    }
  }

  /** `make <target> && \`, one line of a chapter rule. */
  function MakeCommand(target: string): string {
    "make " + target + " && \\"
  }

  function MakeCommands(targets: seq<string>): (r: seq<string>)
    ensures |r| == |targets|
    ensures forall i :: 0 <= i < |targets| ==> r[i] == MakeCommand(targets[i])
  {
    if targets == [] then [] else [MakeCommand(targets[0])] + MakeCommands(targets[1..])
  }

  /** `target_commands` once the last one has its trailing ` && \` trimmed. */
  function TargetCommands(targets: seq<string>): seq<string>
  {
    var cmds := MakeCommands(targets);
    if cmds == [] then [] else cmds[..|cmds| - 1] + [TrimEndMatches(cmds[|cmds| - 1], " && \\")]
  }

  /**
   * Every command but the last is `make <target> && \`; the last is
   * `make <target>`, unless the target itself ends in ` && \`.
   */
  lemma TargetCommandsShape(targets: seq<string>)
    ensures |TargetCommands(targets)| == |targets|
    ensures forall i :: 0 <= i < |targets| - 1 ==> TargetCommands(targets)[i] == MakeCommand(targets[i])
    ensures targets != [] && !EndsWith("make " + targets[|targets| - 1], " && \\") ==>
              TargetCommands(targets)[|targets| - 1] == "make " + targets[|targets| - 1]
  {
    if targets != [] {
      var last := targets[|targets| - 1];
      if !EndsWith("make " + last, " && \\") {
        TrimEndMatchesOnce("make " + last, " && \\");
      }
    }
  }

  /** The rule for a chapter with a Makefile: `cd` into it, then run its targets. */
  function Rule(ch: string, commands: seq<string>): string {
    "compile_" + ch + ":\n\tcd " + ch + " && " + Join(commands, "\n\t") + "\n\n"
  }

  /** A chapter Makefile with no `compile_` line still gets a rule, with nothing after `cd <ch> && `. */
  lemma RuleWithoutTargets(ch: string, content: string)
    requires forall i :: 0 <= i < |Lines(content)| ==> !StartsWith(Lines(content)[i], "compile_")
    ensures Rule(ch, TargetCommands(Targets(content))) == "compile_" + ch + ":\n\tcd " + ch + " && " + "\n\n"
  {
    NoTargets(Lines(content));
    assert Join([], "\n\t") == "";
  }

  lemma {:induction false} NoTargets(lines: seq<string>)
    requires forall i :: 0 <= i < |lines| ==> !StartsWith(lines[i], "compile_")
    ensures TargetsOf(lines) == []
    decreases |lines|
  {
    if lines != [] {
      assert forall i :: 0 <= i < |lines[1..]| ==> lines[1..][i] == lines[i + 1];
      NoTargets(lines[1..]);
    }
  }

  // ---------------------------------------------------------------- the Makefile

  /** The rule for one chapter: none without a Makefile, the error when the Makefile cannot be read. */
  function RuleFor(ch: string, makefiles: map<string, Node>): Result<string, string>
  {
    if ch !in makefiles then Ok("")
    else
      match makefiles[ch]
      case File(content) => Ok(Rule(ch, TargetCommands(Targets(content))))
      case _ => Err(ch + "/Makefile")
  }

  /** `done` followed by the rest, or the failure. */
  function After(done: string, r: Result<string, string>): Result<string, string>
  {
    match r
    case Err(p) => Err(p)
    case Ok(s) => Ok(done + s)
  }

  /** The chapter rules, in chapter order, stopping at the first unreadable Makefile. */
  function RulesText(chapters: seq<string>, makefiles: map<string, Node>): Result<string, string>
  {
    if chapters == [] then Ok("")
    else
      match RuleFor(chapters[0], makefiles)
      case Err(p) => Err(p)
      case Ok(s) => After(s, RulesText(chapters[1..], makefiles))
  }

  /** The rules fail exactly when some chapter's Makefile exists but is not a readable file. */
  lemma {:induction false} RulesTextOk(chapters: seq<string>, makefiles: map<string, Node>)
    ensures RulesText(chapters, makefiles).Ok? <==>
              forall i :: 0 <= i < |chapters| && chapters[i] in makefiles ==> makefiles[chapters[i]].File?
    decreases |chapters|
  {
    if chapters != [] {
      RulesTextOk(chapters[1..], makefiles);
      if forall i :: 0 <= i < |chapters| - 1 && chapters[1..][i] in makefiles ==> makefiles[chapters[1..][i]].File? {
        forall i | 0 <= i < |chapters| && chapters[i] in makefiles && i > 0
          ensures makefiles[chapters[i]].File?
        {
          assert chapters[i] == chapters[1..][i - 1];
        }
      }
      if forall i :: 0 <= i < |chapters| && chapters[i] in makefiles ==> makefiles[chapters[i]].File? {
        forall i | 0 <= i < |chapters| - 1 && chapters[1..][i] in makefiles
          ensures makefiles[chapters[1..][i]].File?
        {
          assert chapters[1..][i] == chapters[i + 1];
        }
      }
    }
  }

  /** The `compile_all` line: a `compile_<ch>` prerequisite per chapter, space-separated. */
  function AllTargets(chapters: seq<string>): (r: seq<string>)
    ensures |r| == |chapters|
    ensures forall i :: 0 <= i < |chapters| ==> r[i] == "compile_" + chapters[i]
  {
    if chapters == [] then [] else ["compile_" + chapters[0]] + AllTargets(chapters[1..])
  }

  function AllLine(chapters: seq<string>): string {
    "compile_all: " + Join(AllTargets(chapters), " ") + "\n\n"
  }

  /**
   * `compile_all` names every chapter, with or without a Makefile, in chapter
   * order: splitting its prerequisites at spaces gives `compile_<ch>` per chapter.
   */
  lemma AllLineLists(chapters: seq<string>)
    requires chapters != []
    requires forall i :: 0 <= i < |chapters| ==> ' ' !in chapters[i]
    ensures var line := AllLine(chapters);
            && StartsWith(line, "compile_all: ") && EndsWith(line, "\n\n")
            && SplitOn(line[13..|line| - 2], ' ') == AllTargets(chapters)
  {
    var ts := AllTargets(chapters);
    forall i | 0 <= i < |ts|
      ensures ' ' !in ts[i]
    {
      assert ts[i] == "compile_" + chapters[i];
    }
    var line := AllLine(chapters);
    var body := Join(ts, " ");
    assert line[..13] == "compile_all: ";
    assert line[|line| - 2..] == "\n\n";
    assert line[13..|line| - 2] == body;
    SplitOnJoin(ts, ' ');
  }

  /** The whole root Makefile: the chapter rules, `compile_all`, then `clean`. */
  function MakefileText(chapters: seq<string>, rules: string): (r: string)
    ensures EndsWith(r, CLEAN)
  {
    var r := rules + AllLine(chapters) + CLEAN;
    assert r[|r| - |CLEAN|..] == CLEAN;
    r
  }

  /** The body of `root()`'s chapter loop: one chapter's rule, or the path of its unreadable Makefile. */
  method ChapterRule(chapter: string, makefiles: map<string, Node>) returns (r: Result<string, string>)
    ensures r == RuleFor(chapter, makefiles)
  {
    if chapter !in makefiles {
      return Ok("");
    }
    match makefiles[chapter]
    case File(text) =>
      var targets := Targets(text);
      var commands := MakeCommands(targets);
      if |commands| > 0 {
        commands := commands[..|commands| - 1] + [TrimEndMatches(commands[|commands| - 1], " && \\")];
      }
      assert commands == TargetCommands(targets);
      r := Ok(Rule(chapter, commands));
    case _ =>
      r := Err(chapter + "/Makefile");
  }

  /** The chapter loop of `root()`: the rules in chapter order, stopping at the first unreadable Makefile. */
  method ChapterRules(chapters: seq<string>, makefiles: map<string, Node>) returns (r: Result<string, string>)
    ensures r == RulesText(chapters, makefiles)
  {
    var content := "";
    ghost var goal := RulesText(chapters, makefiles);
    var i := 0;
    assert chapters[i..] == chapters;
    assert goal.Ok? ==> content + goal.value == goal.value;
    while i < |chapters|
      invariant 0 <= i <= |chapters|
      invariant goal == After(content, RulesText(chapters[i..], makefiles))
    {
      RulesStep(chapters, i, makefiles, content);
      var rule := ChapterRule(chapters[i], makefiles);
      if rule.Err? {
        return Err(rule.error);
      }
      content := content + rule.value;
      i := i + 1;
    }
    assert chapters[i..] == [];
    assert content + "" == content;
    r := Ok(content);
  }

  /**
   * `root()`: the sorted chapters and the root Makefile text, or the path of
   * the first chapter Makefile that could not be read.
   */
  method RootMakefile(entries: seq<Entry>, makefiles: map<string, Node>) returns (r: Result<(seq<string>, string), string>)
    ensures r.Ok? <==> RulesText(Chapters(entries), makefiles).Ok?
    ensures r.Err? ==> r.error == RulesText(Chapters(entries), makefiles).error
    ensures r.Ok? ==> r.value.0 == Chapters(entries)
    ensures r.Ok? ==> r.value.1 == MakefileText(Chapters(entries), RulesText(Chapters(entries), makefiles).value)
  {
    var chapters := ChapterNames(entries);
    chapters := SortStrings(chapters);
    var rules := ChapterRules(chapters, makefiles);
    if rules.Err? {
      return Err(rules.error);
    }
    r := Ok((chapters, rules.value + AllLine(chapters) + CLEAN));
  }

  /** One more chapter of the loop: its rule is appended after those so far. */
  lemma RulesStep(chapters: seq<string>, i: nat, makefiles: map<string, Node>, done: string)
    requires i < |chapters|
    ensures After(done, RulesText(chapters[i..], makefiles)) ==
              match RuleFor(chapters[i], makefiles)
              case Err(p) => Err(p)
              case Ok(s) => After(done + s, RulesText(chapters[i + 1..], makefiles))
  {
    assert chapters[i..][0] == chapters[i] && chapters[i..][1..] == chapters[i + 1..];
    match RuleFor(chapters[i], makefiles)
    case Err(_) =>
    case Ok(s) =>
      var rest := RulesText(chapters[i + 1..], makefiles);
      if rest.Ok? {
        assert done + (s + rest.value) == (done + s) + rest.value;
      }
  }
}
