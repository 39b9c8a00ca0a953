# ZigUnleashed core, modelled in Dafny

ZigUnleashed is the companion repository of a book on Zig. Next to the Zig code it holds
two kinds of material, and this project models both:

- **Chapter samples** in C, C++ and Rust that the book compares Zig with:
  - a bump (arena) allocator whose cursor moves forward on every `allocate` and returns to
    the start of the heap when the last allocation is released;
  - a growable integer array that doubles its capacity;
  - a heap-allocated slice and a heap array printed as a list;
  - a pointer `swap` and a `max` template;
  - a function-pointer call, an enum-to-string switch;
  - `Result`/`Option` division.
- **Generator programs** that keep the repository in order:
  - `makegen.rs` and `ch_make_help.rs` write one Makefile per chapter, listing its C, C++,
    Rust and Zig files;
  - `root.rs` writes the root Makefile, which calls every chapter's `compile_` targets;
  - `readme.py` and `readme.go` write the README's chapter links, and `readme.py` adds
    per-language file and line counts;
  - `programs.py` prints each chapter's files with their language;
  - `check_files.py` lists the Zig binaries and tests of a directory tree.

Each source file becomes one module, and each module takes the form of its source:

- Code that updates fields in place is a class whose methods are proved against pure
  functions of the old state. This covers the allocator, the dynamic array, the slice, the
  Makefile-variable collector and the language counter.
- Loops become methods with invariants.
- Pure expressions become functions with lemmas.

The generators never touch a file system here. A directory listing is a sequence of entries,
file contents are values, and existence or `stat` results are function parameters.

Shared modules:

- `Wrappers`: `Option` and `Result`.
- `Fs`: the file system as values: a directory entry (`Entry`) is a name and what it denotes (`Node`: a directory, a readable file with its text, or something unreadable), and `Kind` is the source-file kind by extension.
- `Text`: string splitting, joining, decimals, lower-casing and Rust's `Path::extension`.
- `Arith`:
  - powers of two and the bit mask of `align_up`;
  - 64-bit `size_t` arithmetic;
  - `i32` bounds;
  - division truncating toward zero.
- `Sorting`: Python's stable `sorted` by key and Rust's lexicographic `Vec<String>::sort`.
- `Languages`: the extension table of the two Python scripts.
- `Chapters`: chapter titles, directory names and link lines, shared by `readme.py` and
  `readme.go`.

An unbalanced `deallocate` decrements the unsigned count, which wraps around. The model follows
the code: `BumpAlloc.Deallocated`, `BumpAlloc.UnbalancedDeallocate`.

## Model

| member | source | states |
|---|---|---|
| Arith.ClearLowBits | ch06/allocators++/bump_alloc.cc:6 | masking off the low bits of a power-of-two alignment gives the largest multiple of it that is not above the value |
| Arith.SizeAdd | ch06/allocators++/bump_alloc.cc:36 | `size_t` addition is the exact sum below 2^64 and the sum less 2^64 after one overflow |
| Arith.SizeDec | ch06/allocators++/bump_alloc.cc:50 | `size_t` decrement is one less, except that zero wraps to the largest `size_t` |
| Arith.TruncDiv | ch07/result.rs:5 | the quotient rounds toward zero: the remainder is smaller than the divisor in size and never has the opposite sign of the dividend |
| Arith.TruncDivInI32 | ch07/result.rs:5 | for `i32` operands other than `i32::MIN / -1`, the quotient fits in `i32` |
| Arith.TruncDivDiffersFromEuclidean | ch07/result.rs:5 | `-7 / 2` is `-3` in Rust but `-4` under Euclidean division |
| Arith.TruncDivNonNegative | ch07/error.rs:5 | for a non-negative dividend and a positive divisor, truncating and Euclidean division agree |
| BumpAlloc.AlignUp | ch06/allocators++/bump_alloc.cc:5-7 | for a power-of-two alignment, `align_up` gives a multiple of the alignment that is at or above the value and less than one alignment above it |
| BumpAlloc.AlignUpIsLeast | ch06/allocators++/bump_alloc.cc:5-7 | `align_up` is below or equal to every multiple of the alignment at or above the value, so it is the least one |
| BumpAlloc.AlignUpAligned | ch06/allocators++/bump_alloc.cc:5-7 | an already aligned value is returned unchanged |
| BumpAlloc.Create | ch06/allocators++/bump_alloc.cc:20-29 | after construction `next == heap_start`, `heap_end == heap_start + heap_size`, no allocations, and the cursor is inside the heap |
| BumpAlloc.Allocated | ch06/allocators++/bump_alloc.cc:32-45 | for a power-of-two alignment, `allocate` fails exactly when the aligned start plus the size passes `heap_end`, and then changes nothing. On success the block is aligned, starts at or after the old cursor and ends within the heap; the cursor moves to its end and the count goes up by one. The cursor stays inside the heap |
| BumpAlloc.AllocatedAsWritten | ch06/allocators++/bump_alloc.cc:35-38 | `allocate` with the source's `size_t` sums, for a power-of-two alignment: it fails exactly when the wrapped end passes `heap_end`; on success the block is aligned and the cursor becomes the wrapped end |
| BumpAlloc.AllocatedAsWrittenAgrees | ch06/allocators++/bump_alloc.cc:35-38 | while neither sum reaches 2^64, the source's arithmetic gives exactly the result of `Allocated` |
| BumpAlloc.HugeRequestAccepted | ch06/allocators++/bump_alloc.cc:35-41 | a request of 2^64 - 8 bytes on a fresh 1024-byte heap is granted by the source's arithmetic: the cursor falls below `heap_start`. The exact arithmetic refuses it |
| BumpAlloc.Deallocated | ch06/allocators++/bump_alloc.cc:48-55 | `deallocate` lowers the count by one, wrapping at zero. It rewinds the cursor to `heap_start` exactly when the new count is zero and otherwise leaves it. The heap bounds are unchanged and the cursor stays inside the heap |
| BumpAlloc.UnbalancedDeallocate | ch06/allocators++/bump_alloc.cc:50-54 | a `deallocate` with no allocation outstanding wraps the count to the largest `size_t` and does not rewind; a second one leaves one less |
| BumpAlloc.AllocateAll | ch06/allocators++/bump_alloc.cc:32-45 | a run of `allocate` calls gives one result per request, keeps the heap bounds, never moves the cursor backward and keeps it inside the heap |
| BumpAlloc.AllocatePlacesAfterCursor | ch06/allocators++/bump_alloc.cc:35-43 | every block granted in a run is aligned, starts at or after the first cursor and ends within the heap |
| BumpAlloc.AllocateAllDisjoint | ch06/allocators++/bump_alloc.cc:35-43 | two blocks granted in a run with no `deallocate` between them do not overlap: the earlier ends at or before the later begins |
| BumpAlloc.DeallocatedTimes | ch06/allocators++/bump_alloc.cc:48-55 | `n` deallocations lower the count by `n` and keep the heap bounds |
| BumpAlloc.DeallocateAllResets | ch06/allocators++/bump_alloc.cc:48-55 | after `k` deallocations the cursor is back at `heap_start` when `k` equals the count of allocations, and is unchanged when fewer were released |
| BumpAlloc.FailedAllocateKeepsArena | ch06/allocators++/bump_alloc.cc:35-39 | after a refused request, a request that fits is granted at the same aligned place as it would have been before the refusal |
| BumpAlloc.FillWholeHeap | ch06/allocators++/bump_alloc.cc:35-43 | a request for the whole heap is granted at its start, after which even one byte is refused |
| BumpAlloc.BumpAllocator.constructor | ch06/allocators++/bump_alloc.cc:20-22 | the constructed allocator is the state `init` describes, with no allocations |
| BumpAlloc.BumpAllocator.Init | ch06/allocators++/bump_alloc.cc:25-29 | `init` sets the heap bounds and the cursor from the new buffer and leaves the allocation count alone |
| BumpAlloc.BumpAllocator.Allocate | ch06/allocators++/bump_alloc.cc:32-45 | for a power-of-two alignment, the returned pointer and the new fields are those of `Allocated` on the old fields, so the block is aligned, inside the heap and after the old cursor |
| BumpAlloc.BumpAllocator.Deallocate | ch06/allocators++/bump_alloc.cc:48-55 | the new fields are those of `Deallocated` on the old fields |
| BumpAlloc.DemoSteps | ch06/allocators++/bump_alloc.cc:65-74 | on a 1024-byte heap at an 8-aligned base, the `int` lands at the base and the `double` at base + 8 after 4 bytes of padding; two allocations, cursor at base + 16 |
| BumpAlloc.Demo | ch06/allocators++/bump_alloc.cc:63-84 | the demo's trace: the `int` at the base, the `double` at base + 8, and after one `deallocate` one allocation remains with the cursor still at base + 16 |
| DynArray.GrownCapacity | ch04/dynArray.c:23 | the new capacity is 1 from 0 and double otherwise; it is larger than the old one and a power of two stays a power of two |
| DynArray.Realloc | ch04/dynArray.c:25 | `realloc` gives a fresh buffer of the new capacity that begins with the old contents |
| DynArray.DynamicArray.constructor | ch04/dynArray.c:12-16 | a new array has a null buffer, size 0 and capacity 0 |
| DynArray.DynamicArray.Init | ch04/dynArray.c:12-16 | `init` sets the buffer to null, the size to 0 and the capacity to 0 |
| DynArray.DynamicArray.Append | ch04/dynArray.c:19-38 | `append` grows when `size + 1 >= capacity`: on a failed `realloc` nothing changes; otherwise the element is added after the old ones, the size goes up by one and a grown capacity is `GrownCapacity` of the old. The invariant `0 <= size <= capacity`, with capacity 0 or a power of two, is kept |
| DynArray.DynamicArray.Pop | ch04/dynArray.c:41-51 | `pop` on a non-empty array returns the last element and drops it, keeping the rest; on an empty one it returns -1 and changes nothing. Buffer and capacity never change |
| DynArray.DynamicArray.Deinit | ch04/dynArray.c:54-57 | `deinit` leaves exactly the state `init` leaves |
| DynArray.Demo | ch04/dynArray.c:59-86 | appending 10, 20, 30 stores them in order with capacity 4; `pop` returns 30 and leaves 10, 20 |
| SliceAlloc.CreateSlice | ch04/slice_alloc.c:8-19 | the slice's length is the requested length whether or not `malloc` succeeded; the pointer is a fresh buffer of that length, or null on failure |
| SliceAlloc.FreeSlice | ch04/slice_alloc.c:21-28 | `freeSlice` leaves a null pointer and length 0 |
| SliceAlloc.Fill | ch04/slice_alloc.c:34 | after the fill loop every element `i` holds `i + 1` |
| SliceAlloc.Render | ch04/slice_alloc.c:36-37 | the printed text is each element in decimal followed by a space, then a newline |
| SliceAlloc.Demo | ch04/slice_alloc.c:30-41 | `main` prints `1 2 3 4 5 ` and a newline, and leaves the slice freed |
| SimpleDynArray.BracketList | ch06/simple_dyn_array.c:14-20 | the printed list opens with `[` and closes with `]` |
| SimpleDynArray.BracketListSplit | ch06/simple_dyn_array.c:14-20 | the printed list is `[`, each element but the last followed by `, `, the last element, then `]` |
| SimpleDynArray.FillDoubled | ch06/simple_dyn_array.c:9-12 | after the loop the 10-element array holds `2 * i` at every index `i` |
| SimpleDynArray.Render | ch06/simple_dyn_array.c:14-20 | the two print loops produce the bracketed list of the array |
| SimpleDynArray.Demo | ch06/simple_dyn_array.c:4-25 | the output is exactly `[0, 2, 4, 6, 8, 10, 12, 14, 16, 18]`, with no newline |
| Swap.Swapped | ch03/swap.c:3-11 | after a swap the two cells hold each other's old values and every other cell is unchanged |
| Swap.SwapCells | ch03/swap.c:3-11 | swapping through two pointers into memory gives `Swapped` of the old memory |
| Swap.SwapTwice | ch03/swap.c:3-11 | swapping twice restores the memory |
| Swap.SwapSame | ch03/swap.c:6-10 | swapping a cell with itself changes nothing |
| Swap.SwapSymmetric | ch03/swap.c:3-11 | the order of the two pointers does not matter |
| Swap.Demo | ch03/swap.c:13-20 | `a = 20, b = 56` become `a = 56, b = 20` |
| Max.Max | ch03/max.cpp:4-7 | `max` returns one of its two arguments |
| Max.MaxInt | ch03/max.cpp:4-7 | on integers `max` is at least both arguments and is one of them |
| Max.MaxTieIsSecond | ch03/max.cpp:6 | when neither argument is greater, the second is returned |
| Max.MaxNotBelow | ch03/max.cpp:4-7 | for an irreflexive, asymmetric `>`, neither argument is greater than the result |
| Max.MaxDemo | ch03/max.cpp:9-22 | `max(3, 4)` is 4 and `max(3.14, 2.71)` is 3.14 |
| FnPtr.Square | ch03/fn_ptr.rs:8-10 | the square is non-negative, zero only for zero, and at least the magnitude of the value |
| FnPtr.AddFnTwice | ch03/fn_ptr.rs:3-5 | the result is twice `f(value)` and fits in `i32` |
| FnPtr.SquareFitsI32 | ch03/fn_ptr.rs:9 | `value * value` does not overflow `i32` exactly when the value is between -46340 and 46340 |
| FnPtr.AddSquareTwiceFits | ch03/fn_ptr.rs:4 | the doubled square does not overflow exactly when the value is between -32767 and 32767 |
| FnPtr.AddFnTwiceDemo | ch03/fn_ptr.rs:14 | `add_fn_twice(4, square)` is 32 |
| Number.Ordinal | ch05/number.c:3-7 | every enum value is one of 0, 1 and 2 |
| Number.FromOrdinal | ch05/number.c:3-7 | an integer names an enum value exactly when it is 0, 1 or 2, and that value's ordinal is the integer |
| Number.OrdinalRoundTrip | ch05/number.c:3-7 | an enum value's ordinal names the value back |
| Number.NumberStr | ch05/number.c:10-25 | every name returned starts with `Number.` |
| Number.NumberStrInjective | ch05/number.c:13-21 | two enum values have the same name exactly when they are equal |
| Number.Increment | ch05/number.c:32-35 | `++num` moves to the value with the next ordinal; only `Two` has none |
| Number.Demo | ch05/number.c:27-39 | the three lines printed are `Number.Zero => 0`, `Number.One => 1` and `Number.Two => 2` |
| DivideResult.Divide | ch07/result.rs:1-7 | `divide` is `Err("Cannot divide by zero")` exactly when the divisor is 0; otherwise the quotient fits in `i32` and rounds toward zero |
| DivideResult.DivideDemo | ch07/result.rs:14-18 | `divide(10, 2).unwrap_or(0)` is 5, `divide(10, 0).unwrap_or(0)` is 0, and `divide(-7, 2)` is `Ok(-3)` |
| DivideError.DivideRes | ch07/error.rs:1-7 | `divide_res` is `Err("Division by Zero")` exactly when the divisor is 0; otherwise the quotient fits in `i32` and rounds toward zero |
| DivideError.DivideOpt | ch07/error.rs:9-15 | `divide_opt` is `None` exactly when the divisor is 0; otherwise the quotient fits in `i32` and rounds toward zero |
| DivideError.DivideOptMatchesRes | ch07/error.rs:1-15 | `divide_opt` is `Some(x)` exactly when `divide_res` is `Ok(x)`: the option is the result with its error dropped |
| DivideError.MainResult | ch07/error.rs:17-21 | `main` returns `Err("Division by Zero")` from its `?` |
| Text.RustExtension | makegen.rs:70 | `Path::extension`: when there is one, the name ends with `.` and the extension, which has no `.`. There is none when the name has no `.` after its first character or is `..` |
| Text.TrimEndMatchesOnce | root.rs:42 | trimming a suffix from a text that ends with it once gives the text before it |
| ChMakeHelp.NewZig | ch_make_help.rs:19-31 | `Zig::new` fails exactly when the entry cannot be read as a file, with the path `<ch>/<file>` standing for the read error; otherwise it keeps the file name, with type `Bin` exactly when the content contains `main` |
| ChMakeHelp.KindOf | ch_make_help.rs:59-68 | an entry is collected exactly when its extension is `c`, `cpp`, `rs` or `zig`, into the list of that extension |
| ChMakeHelp.NamesOfMember | ch_make_help.rs:55-75 | a name is in a kind's list exactly when some entry has it and its extension is that kind's |
| ChMakeHelp.ScanZigsMeaning | ch_make_help.rs:55-75 | the Zig scan succeeds exactly when every `.zig` entry is a readable file. It then yields one `Zig` per entry, in order; otherwise the error names the first entry that is not |
| ChMakeHelp.MakeVar.constructor | ch_make_help.rs:46-53 | all four lists start empty |
| ChMakeHelp.MakeVar.Search | ch_make_help.rs:55-75 | `search` succeeds exactly when the Zig scan does, with that scan's error. On success each list grows by the entries of its extension, in listing order |
| ChMakeHelp.MakeVar.PushEntry | ch_make_help.rs:59-71 | one loop step adds the entry to the list of its extension, or fails on an unreadable `.zig` entry |
| ChMakeHelp.ZigPartition | ch_make_help.rs:95-114 | every Zig file is in exactly one of the `Bin` and `Test` lists |
| ChMakeHelp.VarsTextLines | ch_make_help.rs:76-123 | for names without newlines, `to_string` is exactly five lines, in the order ZIG_EXE, ZIG_TEST, RS, CPP, C, with no trailing newline |
| ChMakeHelp.EmptyVarsText | ch_make_help.rs:77-122 | with nothing collected, every line is still written as `NAME = ` |
| ChMakeHelp.Output | ch_make_help.rs:126-134 | `main` prints the variable text and a newline after a successful `search`, and otherwise stops with `search`'s error |
| MakeGen.NewZig | makegen.rs:21-41 | `Zig::new` fails exactly when the entry cannot be read, with the path `<ch>/<file>` standing for the read error. A directory is a `Proj`; a file is a `Bin` exactly when its content contains `main` |
| MakeGen.KindOf | makegen.rs:70-82 | an entry is collected exactly when its name has no `extern` and its extension is `c`, `cpp`, `rs` or `zig`, into the list of that extension |
| MakeGen.NamesOfMember | makegen.rs:66-86 | a name is in a kind's list exactly when some entry has it and `KindOf` sends it to that kind |
| MakeGen.ScanZigsMeaning | makegen.rs:66-100 | the Zig scan succeeds exactly when no candidate is unreadable. It then yields one `Zig` per candidate, in order; otherwise the error names the first unreadable one |
| MakeGen.MakeVar.constructor | makegen.rs:57-64 | all four lists start empty |
| MakeGen.MakeVar.Search | makegen.rs:66-101 | `search` succeeds exactly when the Zig scan of the chapter's `.zig` entries, then the exercises, succeeds. On success the C, C++ and Rust lists grow by their entries in order, and the Zig list by the scan |
| MakeGen.MakeVar.SearchChapter | makegen.rs:68-86 | the chapter loop adds its C, C++ and Rust entries in listing order and its Zig files as the scan of its `.zig` entries does, stopping with the scan's error |
| MakeGen.MakeVar.SearchExercises | makegen.rs:88-99 | the exercises loop adds only Zig files, and leaves the C, C++ and Rust lists unchanged |
| MakeGen.MakeVar.PushEntry | makegen.rs:70-85 | one loop step adds the entry to the list of its kind, or fails on an unreadable `.zig` entry |
| MakeGen.ExerciseStep | makegen.rs:92-98 | an exercise whose name contains `zig` is read as `exercises/<name>`; any other is skipped |
| MakeGen.ZigPartition | makegen.rs:135-173 | every Zig file is in exactly one of the `Bin`, `Test` and `Proj` lists |
| MakeGen.VarsText | makegen.rs:102-177 | `to_string` is empty exactly when all four lists are empty |
| MakeGen.VarLinesEmpty | makegen.rs:102-177 | there are no variable lines exactly when all four lists are empty |
| MakeGen.VarsTextLines | makegen.rs:102-177 | for names without newlines, every variable line ends with a newline, and splitting the text at newlines gives back the lines |
| MakeGen.VarLineFiles | makegen.rs:105-113 | a non-empty list gives one line `NAME = ` whose rest, split at spaces, is the list |
| MakeGen.VarLinesAssign | makegen.rs:102-177 | every line assigns one of C_FILES, CPP_FILES, RS_FILES, ZIG_EXE_FILES, ZIG_TEST_FILES and ZIG_PROJ_FILES |
| MakeGen.ZigArg | makegen.rs:227-245 | the Zig recipe refers to all three variables it is given |
| MakeGen.ZigCommandAsWrittenUndefined | makegen.rs:229-234 | the recipe as written loops over `$(ZIG_EXE)`, and no Makefile the generator writes assigns ZIG_EXE, ZIG_TEST or ZIG_PROJS |
| MakeGen.ZigCommandDefined | makegen.rs:227-245 | the corrected recipe loops over the variable of each Zig type, and that variable is assigned whenever the chapter has a file of that type |
| MakeGen.NewCommands | makegen.rs:252-280 | `Commands::new` pushes one compiler variable per non-empty list, in the order C, C++, Rust, each with its rule at the same position. The Zig rule `Command::zig()`, as written, comes last when there are Zig files, with no variable |
| MakeGen.NewCommandsFixed | makegen.rs:252-280 | the same commands with the corrected Zig rule last when there are Zig files |
| MakeGen.FixedChangesOnlyZigRule | makegen.rs:271-274 | the correction changes only the last rule: both give the same variables and as many rules, the same commands and Makefile text without Zig files, and only the Zig rule differs otherwise |
| MakeGen.CompileArg | makegen.rs:196-225 | the recipe of a C, C++ or Rust rule loops over its file-list variable and calls its compiler variable |
| MakeGen.CompilerRuleDefined | makegen.rs:251-270 | every C, C++ or Rust rule `Commands::new` emits loops over a file list that the same Makefile assigns, and calls a compiler variable that the Makefile declares (`CC`, `CC+`, `RUSTC`) |
| MakeGen.CompilerVariablesOrdered | makegen.rs:256-269 | each compiler variable is present exactly when its list is non-empty, and they appear in the order C, C++, Rust |
| MakeGen.CommandText | makegen.rs:246-248 | a rule's text is its target line, a newline, then exactly its recipe, so splitting at the first newline gives the target line back |
| MakeGen.CommandsTextJoin | makegen.rs:281-284 | with both variables and rules, `Commands::to_string` is the declarations and then the rule texts, all joined by newlines |
| MakeGen.EmptyMakefile | makegen.rs:302 | a chapter with nothing to compile gets a Makefile of two newlines |
| MakeGen.ChapterMakefile | makegen.rs:291-304 | one iteration of `main`: the Makefile text `makegen` writes, with the as-written Zig rule, is the variable text and the rules joined by a newline; or `search`'s error |
| MakeGen.ChapterMakefileFixed | makegen.rs:291-304 | the same iteration with the corrected Zig rule, the text `MakefileTextFixed` gives; fails exactly as `ChapterMakefile` does |
| MakeGen.ChapterCompilesC | makegen.rs:256-259 | the C compiler variable is declared exactly when some entry is a C file |
| MakeGen.ChapterCompilesZig | makegen.rs:271-274 | the Zig rule is written exactly when the chapter or its exercises supply a Zig candidate: the as-written rule by `NewCommands`, the corrected one by `NewCommandsFixed` |
| Root.ChapterNamesMember | root.rs:6-21 | a name is a chapter exactly when it is a directory entry whose name contains `ch` |
| Root.Chapters | root.rs:6-23 | the chapters are those names, sorted ascending |
| Root.ChaptersMember | root.rs:6-23 | a name is among the sorted chapters exactly when it is a directory entry containing `ch` |
| Root.TargetsShape | root.rs:31-35 | every extracted target starts with `compile_` and holds no `:` |
| Root.NoTargets | root.rs:31-35 | a Makefile with no line starting `compile_` yields no target |
| Root.MakeCommands | root.rs:37-40 | each target becomes `make <target> && \`, in order |
| Root.TargetCommandsShape | root.rs:37-43 | every command but the last is `make <target> && \`; the last loses its ` && \` |
| Root.RuleWithoutTargets | root.rs:41-50 | a chapter Makefile without targets still gives `compile_<ch>:`, `cd <ch> && ` and nothing else |
| Root.RulesTextOk | root.rs:27-52 | the rules are produced exactly when every chapter Makefile that exists can be read |
| Root.AllTargets | root.rs:54-61 | `compile_all` names `compile_<ch>` for each chapter, in order |
| Root.AllLineLists | root.rs:54-61 | the `compile_all` line, split at spaces, lists every chapter's target, with or without a Makefile |
| Root.MakefileText | root.rs:63 | the root Makefile always ends with the `clean` rule |
| Root.ChapterRule | root.rs:28-50 | one loop step gives the chapter's rule, nothing when it has no Makefile, or the read error |
| Root.ChapterRules | root.rs:27-52 | the loop concatenates the rules of the chapters in order, stopping at the first read error |
| Root.RootMakefile | root.rs:5-69 | `root` returns the sorted chapters and writes the rules, the `compile_all` line and `clean`, or fails with the first read error |
| Chapters.Pad | readme.py:50 | the chapter label is at least two digits and reads back as the chapter number |
| Chapters.DirNameIsPadded | readme.py:54 | `if_exists` checks the directory `ch` followed by the same label `format` uses |
| Chapters.Format | readme.py:49-51 | a link line starts with `- [Chapter <label>: ` and ends with `/ch<label>)`, two spaces and a newline |
| Chapters.FormatNumber | readme.py:49-51 | label and URL use the same zero-padded number, which reads back as the chapter number |
| Chapters.TitlesDefined | readme.py:6-16 | exactly chapters 1 to 9 have a title |
| Chapters.ExistsDiffer | readme.go:42-55 | Go's `if_exists` holds whenever Python's does; they differ only on a `stat` error other than "does not exist" |
| Chapters.PresentBelow | readme.py:165-168 | the chapters listed are those from 1 up to the bound whose directory exists, ascending |
| Chapters.WriteLinks | readme.py:165-168 | the chapter loop writes the link lines of the present chapters 1 to 9, in order |
| Chapters.ChapterLinkStep | readme.py:167-168 | a present chapter adds exactly its `format` line after those before it |
| Chapters.LastSegmentOfFormat | readme.py:51 | the link's last path segment is the chapter's directory name |
| Chapters.LinkNamesChapter | readme.py:51 | the link's last segment sorts as the chapter number under the directory key |
| Chapters.ListsCompared | readme.go:42-55 | Python's link list is contained in Go's, and they are equal when no `stat` fails other than "does not exist" |
| Chapters.ChKey | readme.py:98 | a directory sorts by a non-zero key only when its name starts with `ch` |
| Chapters.ChKeyOfDirName | readme.py:98 | the directory `ch0N` or `chN` sorts as `N` |
| ReadmeGo.Generate | readme.go:57-67 | the README is the header followed by the link lines of the chapters not reported missing, 1 to 9 |
| ReadmeGo.Listed | readme.go:61-66 | a chapter is listed exactly when it is 1 to 9 and `stat` does not report it missing; one `stat` cannot read still counts |
| Languages.PyExtension | programs.py:5 | the extension is a suffix of the file name and contains no `.` |
| Languages.ExtensionOfDotted | programs.py:5 | the extension of `stem.ext` is `ext` |
| Languages.UpperCaseExtension | programs.py:4-15 | `main.C` is Unknown to the case-sensitive `get_language` and C to the lower-casing one |
| Languages.SameTable | programs.py:6-15 | on a lower-case extension both scripts classify alike: C for `c`/`h`, C++ for `cpp`/`hpp`/`cc`/`cxx`, Unknown for anything outside the table |
| Languages.GetLanguageLowerOfLowered | readme.py:65-76 | lower-casing the extension is lower-casing the whole name first |
| Languages.RankIsNameOrder | programs.py:32 | ordering by the language key is ordering by language name as Python compares strings |
| Sorting.SortByKey | programs.py:32 | `sorted(..., key=...)` gives a permutation ordered by the key |
| Sorting.SortByKeyIsStable | programs.py:32 | elements with equal keys keep their order |
| Sorting.SortStrings | root.rs:23 | `sort` gives a permutation in lexicographic order |
| ReadmePy.LanguageFiles.constructor | readme.py:94 | a new dictionary is empty |
| ReadmePy.LanguageFiles.Add | readme.py:113-115 | `setdefault` then `+=` adds the counts to the language's entry, zero when missing; a new key is appended to the key order |
| ReadmePy.LanguageFiles.CountFile | readme.py:80-88 | a file adds 1 and its lines to its lower-cased language, unless it is a Makefile or of unknown language; nothing is ever added under Unknown |
| ReadmePy.LanguageFiles.ListFiles | readme.py:78-88 | after a directory's files each language's counts rise by that language's counted files and lines; keys are in order of first appearance |
| ReadmePy.MergeDir | readme.py:112-117 | merging adds a directory's counts to the overall ones language by language, and adds their sums to the totals. The overall key order gains the directory's new keys in the directory's own order |
| ReadmePy.MergedKeys | readme.py:107-115 | counting a directory into a fresh dictionary and then merging its keys gives the key order of counting its files straight into the overall dictionary |
| ReadmePy.CountDir | readme.py:103-117 | a Zig project adds nothing; any other directory adds its files' counts. The totals stay the sums of the per-language counts |
| ReadmePy.ProcessChDirectories | readme.py:91-117 | in chapter order, each language gets its counted files and lines over all non-project directories. The totals are their sums and Unknown never appears. The keys, and so the table rows, are in order of the first counted file of each language |
| ReadmePy.NothingUnknown | readme.py:84 | no file is ever counted under Unknown |
| ReadmePy.TallyPartition | readme.py:78-88 | the four language counts add up to the number of counted files, and their lines to those files' lines |
| ReadmePy.ZigProjectsAddNothing | readme.py:107 | directories that are all Zig projects contribute no files and no lines |
| ReadmePy.VisitOrder | readme.py:97-98 | directories are visited in chapter order, as a permutation, with ties kept in listing order |
| ReadmePy.WriteReadme | readme.py:163-176 | the README is the header, the links of the existing chapters 1 to 9, the software requirements between rules, the statistics heading and the table |
| Programs.FileInfoListMember | programs.py:21-29 | a file is listed exactly when it is walked and not a Makefile in any case, with its case-sensitive language, Unknown included |
| Programs.SortedFileInfoOrder | programs.py:32 | the printed list is ordered by language name, holds exactly the listed files and keeps walk order within a language |
| Programs.CollectFileInfo | programs.py:24-29 | the walk loop collects the list `FileInfoList` describes |
| Programs.PrintEntries | programs.py:34-35 | one `File: <name>, Language: <language>` line per entry, in order |
| Programs.ListFiles | programs.py:21-35 | `list_files_in_directory` prints the lines of the sorted file list |
| Programs.ReportDir | programs.py:45-51 | each directory prints its heading, then `Zig project directory` or its file lines |
| Programs.ReportAll | programs.py:44-51 | the loop prints each directory's report, in order |
| Programs.ProcessChDirectories | programs.py:37-51 | the directories are reported in chapter order |
| Programs.ZigProjectUnlisted | programs.py:48-49 | a Zig project is reported in two lines and no file line |
| Programs.FilesListed | programs.py:50-51 | any other directory prints one `File: ` line per listed file after its heading |
| CheckFiles.DetectFileType | check_files.py:4-15 | `Not Found` exactly for a missing path; otherwise `Binary` exactly when the content has `fn main`, `Test` exactly when it has `test` but not `fn main`, else `Unknown` |
| CheckFiles.MainWinsOverTest | check_files.py:10-13 | a text with `fn main` is a binary whatever else it holds, and one with `test` is never Unknown |
| CheckFiles.WalkPruned | check_files.py:21-23 | the walk never enters a `zig-cache` directory, and every step lies below the start |
| CheckFiles.ZigCacheSkipped | check_files.py:23 | a `zig-cache` sub-directory contributes nothing to the walk |
| CheckFiles.ListedEndsWithName | check_files.py:27-31 | the listed path, with or without the `exercises` prefix, ends with the file's name |
| CheckFiles.ClassifyFile | check_files.py:26-38 | a `.zig` file is appended to the binaries or the tests by its type; other files and types are dropped |
| CheckFiles.ClassifyStep | check_files.py:25-38 | the file loop of one walk step appends that step's binaries and tests in order |
| CheckFiles.ProcessDirectory | check_files.py:17-40 | `process_directory` returns the binaries and the tests of the whole pruned walk, in walk order |
| CheckFiles.AllPicksPartition | check_files.py:26-38 | every `.zig` file of the walk has exactly one type, so the four lists by type together hold one entry per `.zig` file |
| CheckFiles.AllPicksAreZig | check_files.py:26 | every listed path ends with `.zig` |
| CheckFiles.Run | check_files.py:42-54 | without exactly one argument, the usage line and status 1; otherwise the two headings, each followed by its list joined by spaces |

## Left out

- The `std::mutex` and `lock_guard` of the allocator: calls are modelled one at a time, as the lock makes them.
- `size_t` is taken to be 64 bits wide.
- `new char[]`, `delete[]`, `reinterpret_cast` and the allocator's destructor: the heap's base address is a parameter and memory is not modelled.
- BumpAlloc.Allocated: computes `align_up(next, align) + size` without wrap-around. The source's wrapping arithmetic is `AllocatedAsWritten`, listed under Findings.
- BumpAlloc.AlignUp: requires the alignment to be a power of two, as `alignof` gives at every call in the source. `align_up` accepts any `size_t`: an alignment of 0 makes the mask 0 and gives 0, and other non-powers of two can give an unaligned address. Neither case is modelled.
- BumpAlloc.Allocated: requires a power-of-two alignment, as `alignof` gives. With an alignment of 0 the source would grant address 0, move the cursor to `size`, outside the heap, and count the allocation; this is not modelled.
- BumpAlloc.AllocatedAsWritten: requires a power-of-two alignment, for the same reason as `Allocated`.
- BumpAlloc.BumpAllocator.Allocate: requires a power-of-two alignment, as `Allocated` does.
- BumpAlloc.BumpAllocator.Allocate: follows `Allocated`, so it also uses exact sums rather than the source's wrapping ones.
- BumpAlloc.Create: takes `heap_start + heap_size` not to wrap, as an address `new char[]` returns leaves room for the block.
- BumpAlloc.DeallocatedTimes: requires no more deallocations than allocations; the unbalanced case is `UnbalancedDeallocate`.
- The demo's writes through the returned pointers: `*intPtr = 42`, `*doublePtr = 3.14` and the printing.
- Floating point: `max` on `double` is modelled on `real`.
- `malloc` and `realloc` succeed or fail as a boolean parameter.
- The `int` overflow of `capacity * 2` in `dynArray.c` and of `length * sizeof(int)` in `slice_alloc.c` is not modelled.
- `slice_alloc.c`'s `main` writes through the pointer without checking it for null: the demo takes the allocation to succeed.
- `simple_dyn_array.c` uses `malloc`'s result without checking it for null: `SimpleDynArray.Demo` allocates with `new`, which always succeeds.
- `ch07/result.rs`'s `main` uses `?` in a function returning `()`, which Rust rejects; only `divide` and the two `unwrap_or` values are modelled.
- DivideResult.Divide: requires the operands not to be `i32::MIN` and -1, the one case where Rust's `/` panics on overflow.
- DivideError.DivideRes: requires the operands not to be `i32::MIN` and -1, where Rust's `/` panics.
- DivideError.DivideOpt: requires the operands not to be `i32::MIN` and -1, where Rust's `/` panics.
- FnPtr.Square: requires `value * value` to fit in `i32`; a debug build panics otherwise and a release build wraps.
- FnPtr.AddFnTwice: requires `f(value)` and the doubled sum to fit in `i32`, for the same reason.
- `numberStr`'s `default` branch returns nothing, which is undefined behaviour; the model covers the three enum values only.
- File-system access in every generator:
  - directory listings are sequences of entries in the order `read_dir`, `os.listdir` or `os.walk` gives them;
  - file contents are values;
  - `exists`, `is_dir` and `stat` results are parameters.
- `read_dir` and `DirEntry` errors are not modelled; the only error path kept is an unreadable file.
- ChMakeHelp.NewZig: the error of an unreadable file is the path `<ch>/<file>`, not the `std::io::Error` (kind and OS message) that `read_to_string` returns, because the file system is outside the model.
- MakeGen.NewZig: the error of an unreadable file is the path `<ch>/<file>`, not the `std::io::Error` that `read_to_string` returns, for the same reason.
- Root.ChapterRule: the error of an unreadable chapter Makefile is the path `<ch>/Makefile`, not the `std::io::Error` that `read_to_string` returns.
- check_files.py opens and reads each existing `.zig` file without a guard, so an unreadable or undecodable file raises. The model's file is either missing or has a content, so that exception is not modelled.
- The `unwrap()` panics on names that are not UTF-8 are not modelled.
- ch_make_help.rs's `main` panics in `unwrap()` when no chapter argument is given. `Output` takes the chapter as a parameter, so that panic is not modelled.
- Python's `os.path.relpath` normalisation: the relative path is the joined path components.
- Read and decoding errors of `count_lines` are not modelled: a file's line count is an input.
- The matplotlib plot is left out.
- The `tabulate` table is a string parameter of `WriteReadme`.
- The percentage floats in readme.py:158-160 are not modelled.
- A Python dictionary's key order is kept only as the `order` field of `LanguageFiles`.
- `Lower` folds ASCII letters only.
- Chapters.ChKey: reads only the ASCII digits '0'..'9' as the `\d` of `ch(\d+)` (readme.py:92, 98; programs.py:38, 42). Python's `re` and `int` also accept other Unicode decimal digits, so a directory named `ch` followed by, say, ARABIC-INDIC DIGIT THREE has key 3 in the source and key 0 in the model.
- Progress and usage prints are left out, except the printed lines that are each program's output.
- Writes of the generated Makefiles and README and their I/O errors: each model returns the text.
- `ch.trim()` in makegen's `main` is not modelled: chapter names are taken as given.
- makegen's `main` is modelled as one chapter's iteration, `ChapterMakefile`, rather than as the loop over `root()`'s chapters.
- MakeGen.NewCommands: holds the compiler variables as an enumeration whose declaration lines are `CC = clang`, `CC+ = g++` and `RUSTC = rustc`, rather than as strings.
- make.py and the context files (OpenGL, libpng, pthreads, variadic functions, unions, `extern` linking, printing constructors, leaks, C and C++ error handling) are not part of this model.

## Findings

| source | as written | input that shows it | evidently intended | confidence | as-written member | corrected member |
|---|---|---|---|---|---|---|
| makegen.rs:229-234 | the `compile_zig` recipe loops over `$(ZIG_EXE)`, `$(ZIG_TEST)` and `$(ZIG_PROJS)`, but `to_string` assigns `ZIG_EXE_FILES`, `ZIG_TEST_FILES` and `ZIG_PROJ_FILES` (makegen.rs:146, 159, 172) | any chapter with a `.zig` file: the recipe expands empty lists and compiles nothing | loop over the variables `to_string` assigns | not executed | MakeGen.ZigCommandAsWrittenUndefined | MakeGen.ZigCommandDefined |
| ch06/allocators++/bump_alloc.cc:35-38 | `alloc_end = alloc_start + size` is computed in `size_t` and can wrap, passing the `alloc_end > heap_end` test | `allocate(2^64 - 8, 1)` on a fresh 1024-byte heap at 4096 is granted at 4096 and moves the cursor to 4088, below the heap | refuse any request whose end does not fit in the heap | not executed | BumpAlloc.HugeRequestAccepted | BumpAlloc.Allocated |
