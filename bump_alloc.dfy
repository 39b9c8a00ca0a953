/**
 * The bump (arena) allocator of ch06/allocators++/bump_alloc.cc.
 *
 * Addresses are naturals; `heapStart` is whatever address `new char[heap_size]`
 * returned. Each call is atomic (the source guards `allocate` and `deallocate`
 * with one mutex), so the model is sequential. The state machine is given once
 * as functions on `Arena` values; the class `BumpAllocator` updates its four
 * fields in place exactly as those functions say.
 */
module BumpAlloc {
  import opened Arith
  import opened Wrappers

  /** `align_up(value, alignment)`: `(value + alignment - 1) & ~(alignment - 1)`. */
  function AlignUp(value: nat, alignment: nat): (r: nat)
    requires IsPow2(alignment)
    ensures r % alignment == 0
    ensures value <= r < value + alignment
  {
    ClearLowBits(value + alignment - 1, alignment)
  }

  /** `align_up` is the least multiple of the alignment at or above the value. */
  lemma AlignUpIsLeast(value: nat, alignment: nat, m: nat)
    requires IsPow2(alignment)
    requires m % alignment == 0 && value <= m
    ensures AlignUp(value, alignment) <= m
  {
    var r := AlignUp(value, alignment);
    if m < r {
      MultiplesApart(m, r, alignment);
    }
  }

  /** An already aligned value is left where it is. */
  lemma AlignUpAligned(value: nat, alignment: nat)
    requires IsPow2(alignment) && value % alignment == 0
    ensures AlignUp(value, alignment) == value
  {
    AlignUpIsLeast(value, alignment, value);
  }

  /** The four fields of `BumpAllocator`; the allocation counter is a `size_t` and wraps. */
  datatype Arena = Arena(heapStart: nat, heapEnd: nat, next: nat, allocations: SizeT)
  {
    /** The cursor stays inside the heap. */
    predicate Valid() {
      heapStart <= next <= heapEnd
    }
  }

  /** The constructor followed by `init(heap_size)`, with `base` the address of the new buffer. */
  function Create(base: nat, heapSize: nat): (a: Arena)
    ensures a.Valid()
    ensures a.heapStart == a.next == base && a.heapEnd == base + heapSize && a.allocations == 0
  {
    Arena(base, base + heapSize, base, 0)
  }

  /** The arena after a call and the pointer it returned (`None` is `nullptr`). */
  datatype Step = Step(arena: Arena, ptr: Option<nat>)

  /** `allocate(size, align)`. */
  function Allocated(a: Arena, size: nat, align: nat): (s: Step)
    requires IsPow2(align)
    ensures s.ptr.None? <==> AlignUp(a.next, align) + size > a.heapEnd
    ensures s.ptr.None? ==> s.arena == a
    ensures s.ptr.Some? ==>
              && s.ptr.value % align == 0
              && a.next <= s.ptr.value
              && s.ptr.value + size <= a.heapEnd
              && s.arena == a.(next := s.ptr.value + size, allocations := SizeAdd(a.allocations, 1))
    ensures a.Valid() ==> s.arena.Valid()
  {
    var start := AlignUp(a.next, align);
    if start + size > a.heapEnd then Step(a, None)
    else Step(a.(next := start + size, allocations := SizeAdd(a.allocations, 1)), Some(start))
  }

  /**
   * `allocate(size, align)` with `align_up`'s sum and `alloc_start + size`
   * computed in `size_t`, as the source does: both wrap modulo 2^64, so the
   * bounds test can be passed by a request that runs past the end of the heap.
   */
  function AllocatedAsWritten(a: Arena, size: nat, align: nat): (s: Step)
    requires IsPow2(align)
    ensures s.ptr.None? <==> SizeAdd(ClearLowBits(SizeAdd(a.next, align - 1), align), size) > a.heapEnd
    ensures s.ptr.None? ==> s.arena == a
    ensures s.ptr.Some? ==> s.ptr.value % align == 0 && s.arena.next == SizeAdd(s.ptr.value, size)
  {
    var start := ClearLowBits(SizeAdd(a.next, align - 1), align);
    var end := SizeAdd(start, size);
    if end > a.heapEnd then Step(a, None)
    else Step(a.(next := end, allocations := SizeAdd(a.allocations, 1)), Some(start))
  }

  /** While neither sum reaches 2^64, the source's arithmetic is the exact one. */
  lemma AllocatedAsWrittenAgrees(a: Arena, size: nat, align: nat)
    requires IsPow2(align)
    requires a.next + align - 1 < SIZE_MOD && AlignUp(a.next, align) + size < SIZE_MOD
    ensures AllocatedAsWritten(a, size, align) == Allocated(a, size, align)
  {
    var start := AlignUp(a.next, align);
    assert SizeAdd(a.next, align - 1) == a.next + align - 1;
    assert ClearLowBits(SizeAdd(a.next, align - 1), align) == start;
    assert SizeAdd(start, size) == start + size;
  }

  /**
   * A request of `2^64 - 8` bytes on a fresh 1024-byte heap at 4096: the end
   * address wraps to 4088, the bounds test passes, the block handed out runs
   * far past the heap and the cursor falls below its start. The exact
   * arithmetic of `Allocated` refuses the request.
   */
  lemma HugeRequestAccepted()
    ensures var a, size := Create(4096, 1024), SIZE_MOD - 8;
      && IsPow2(1)
      && AllocatedAsWritten(a, size, 1).ptr == Some(4096)
      && 4096 + size > a.heapEnd
      && AllocatedAsWritten(a, size, 1).arena.next == 4088 < a.heapStart
      && !AllocatedAsWritten(a, size, 1).arena.Valid()
      && Allocated(a, size, 1).ptr.None?
  {
    assert IsPow2(1);
    var a, size := Create(4096, 1024), SIZE_MOD - 8;
    assert SizeAdd(4096, 0) == 4096;
    assert ClearLowBits(4096, 1) == 4096;
    assert SizeAdd(4096, size) == 4088;
    AlignUpAligned(4096, 1);
  }

  /**
   * `deallocate()`: one allocation fewer, and the whole heap free again when
   * none is left. The counter is unsigned, so a call with no outstanding
   * allocation wraps it around to `SIZE_MAX` instead.
   */
  function Deallocated(a: Arena): (b: Arena)
    ensures a.allocations > 0 ==> b.allocations == a.allocations - 1
    ensures a.allocations == 0 ==> b.allocations == SIZE_MAX
    ensures b.heapStart == a.heapStart && b.heapEnd == a.heapEnd
    ensures b.next == if b.allocations == 0 then a.heapStart else a.next
    ensures a.Valid() ==> b.Valid()
  {
    var b := a.(allocations := SizeDec(a.allocations));
    if b.allocations == 0 then b.(next := a.heapStart) else b
  }

  /** An unbalanced `deallocate` does not reset the heap: it leaves the cursor and wraps the counter. */
  lemma UnbalancedDeallocate(a: Arena)
    requires a.allocations == 0
    ensures Deallocated(a).next == a.next && Deallocated(a).allocations == SIZE_MAX
    ensures Deallocated(Deallocated(a)).allocations == SIZE_MAX - 1
  {
  }

  /** One `allocate` request: `(size, align)`. */
  datatype Request = Request(size: nat, align: nat)

  predicate AllAligned(reqs: seq<Request>) {
    forall i :: 0 <= i < |reqs| ==> IsPow2(reqs[i].align)
  }

  /** A run of `allocate` calls with no `deallocate` between them. */
  function AllocateAll(a: Arena, reqs: seq<Request>): (r: (Arena, seq<Option<nat>>))
    requires AllAligned(reqs)
    ensures |r.1| == |reqs|
    ensures r.0.heapStart == a.heapStart && r.0.heapEnd == a.heapEnd
    ensures a.next <= r.0.next
    ensures a.Valid() ==> r.0.Valid()
    decreases |reqs|
  {
    if reqs == [] then (a, [])
    else
      var s := Allocated(a, reqs[0].size, reqs[0].align);
      var rest := AllocateAll(s.arena, reqs[1..]);
      (rest.0, [s.ptr] + rest.1)
  }

  /** Block `i` of a run lies in `[lo, hi)`, is aligned, and `lo` is at or after the cursor. */
  ghost predicate Placed(a: Arena, reqs: seq<Request>, ptrs: seq<Option<nat>>, i: nat)
    requires AllAligned(reqs) && |ptrs| == |reqs| && i < |reqs|
  {
    ptrs[i].Some? ==>
      && a.next <= ptrs[i].value
      && ptrs[i].value + reqs[i].size <= a.heapEnd
      && ptrs[i].value % reqs[i].align == 0
  }

  /**
   * Every block handed out by a run of `allocate` calls is aligned and inside the
   * heap, and a later block starts at or after the end of every earlier one.
   */
  lemma {:induction false} AllocateAllDisjoint(a: Arena, reqs: seq<Request>, i: nat, j: nat)
    requires AllAligned(reqs)
    requires i < j < |reqs|
    ensures var ptrs := AllocateAll(a, reqs).1;
      && Placed(a, reqs, ptrs, i) && Placed(a, reqs, ptrs, j)
      && (ptrs[i].Some? && ptrs[j].Some? ==> ptrs[i].value + reqs[i].size <= ptrs[j].value)
    decreases |reqs|
  {
    var s := Allocated(a, reqs[0].size, reqs[0].align);
    var rest := AllocateAll(s.arena, reqs[1..]);
    assert AllocateAll(a, reqs).1 == [s.ptr] + rest.1;
    assert AllAligned(reqs[1..]);
    if i == 0 {
      AllocatePlacesAfterCursor(s.arena, reqs[1..], j - 1);
    } else {
      AllocateAllDisjoint(s.arena, reqs[1..], i - 1, j - 1);
    }
  }

  /** Each block of a run starts at or after the cursor the run began with, and fits. */
  lemma {:induction false} AllocatePlacesAfterCursor(a: Arena, reqs: seq<Request>, j: nat)
    requires AllAligned(reqs)
    requires j < |reqs|
    ensures Placed(a, reqs, AllocateAll(a, reqs).1, j)
    decreases |reqs|
  {
    var s := Allocated(a, reqs[0].size, reqs[0].align);
    var rest := AllocateAll(s.arena, reqs[1..]);
    assert AllocateAll(a, reqs).1 == [s.ptr] + rest.1;
    if j > 0 {
      assert AllAligned(reqs[1..]);
      AllocatePlacesAfterCursor(s.arena, reqs[1..], j - 1);
    }
  }

  /** `n` calls of `deallocate`. */
  function DeallocatedTimes(a: Arena, n: nat): (b: Arena)
    requires n <= a.allocations
    ensures b.allocations == a.allocations - n
    ensures b.heapStart == a.heapStart && b.heapEnd == a.heapEnd
    decreases n
  {
    if n == 0 then a else DeallocatedTimes(Deallocated(a), n - 1)
  }

  /**
   * Bulk reset: once every outstanding allocation is matched by a `deallocate`,
   * the cursor is back at the start of the heap; fewer calls leave it alone.
   */
  lemma {:induction false} DeallocateAllResets(a: Arena, n: nat)
    requires 0 < n <= a.allocations
    ensures DeallocatedTimes(a, n).next == if n == a.allocations then a.heapStart else a.next
    decreases n
  {
    if n > 1 {
      DeallocateAllResets(Deallocated(a), n - 1);
    }
  }

  /** `allocate` fails without touching the state, so a retry of a smaller request sees the same arena. */
  lemma FailedAllocateKeepsArena(a: Arena, size: nat, align: nat, size': nat)
    requires IsPow2(align)
    requires Allocated(a, size, align).ptr.None?
    requires AlignUp(a.next, align) + size' <= a.heapEnd
    ensures Allocated(Allocated(a, size, align).arena, size', align).ptr == Some(AlignUp(a.next, align))
  {
  }

  /** On a fresh heap of `n` bytes, `allocate(n, 1)` succeeds once and `allocate(1, 1)` then fails. */
  lemma FillWholeHeap(base: nat, n: nat)
    ensures var s1 := Allocated(Create(base, n), n, 1);
      && s1.ptr == Some(base)
      && Allocated(s1.arena, 1, 1).ptr.None?
  {
    AlignUpAligned(base, 1);
    AlignUpAligned(base + n, 1);
  }

  class BumpAllocator {
    var heapStart: nat
    var heapEnd: nat
    var next: nat
    var allocations: SizeT

    function State(): Arena
      reads this
    {
      Arena(heapStart, heapEnd, next, allocations)
    }

    /** `BumpAllocator(heap_size)`: zero every field, then `init(heap_size)`. */
    constructor (heapSize: nat, base: nat)
      ensures State() == Create(base, heapSize)
    {
      heapStart, heapEnd, next, allocations := 0, 0, 0, 0;
      new;
      Init(heapSize, base);
    }

    /** `init(heap_size)`: takes a new buffer at `base`; the counter is not touched. */
    method Init(heapSize: nat, base: nat)
      modifies this
      ensures State() == Create(base, heapSize).(allocations := old(allocations))
    {
      heapStart := base;
      heapEnd := heapStart + heapSize;
      next := heapStart;
    }

    method Allocate(size: nat, align: nat) returns (ptr: Option<nat>)
      requires IsPow2(align)
      modifies this
      ensures Step(State(), ptr) == Allocated(old(State()), size, align)
    {
      var allocStart := AlignUp(next, align);
      var allocEnd := allocStart + size;
      if allocEnd > heapEnd {
        return None;
      } else {
        next := allocEnd;
        allocations := SizeAdd(allocations, 1);
        return Some(allocStart);
      }
    }

    method Deallocate()
      modifies this
      ensures State() == Deallocated(old(State()))
    {
      allocations := SizeDec(allocations);
      if allocations == 0 {
        next := heapStart;
      }
    }
  }

  lemma EightAligned(base: nat)
    requires base % 8 == 0
    ensures base % 4 == 0 && (base + 4) % 4 == 0 && (base + 8) % 8 == 0
  {
    var k := base / 8;
    DivUnique(base, 4, 2 * k, 0);
    DivUnique(base + 4, 4, 2 * k + 1, 0);
    DivUnique(base + 8, 8, k + 1, 0);
  }

  /** The two allocations of the demo, on the arena functions. */
  lemma DemoSteps(base: nat)
    requires base % 8 == 0
    ensures IsPow2(4) && IsPow2(8)
    ensures var s1 := Allocated(Create(base, 1024), 4, 4);
      && s1.ptr == Some(base) && s1.arena == Arena(base, base + 1024, base + 4, 1)
      && Allocated(s1.arena, 8, 8) == Step(Arena(base, base + 1024, base + 16, 2), Some(base + 8))
  {
    assert IsPow2(4) && IsPow2(8);
    IntAligned(base);
    DoubleAligned(base);
  }

  lemma IntAligned(base: nat)
    requires base % 8 == 0
    ensures IsPow2(4) && AlignUp(base, 4) == base
  {
    assert IsPow2(4);
    EightAligned(base);
    AlignUpAligned(base, 4);
  }

  lemma DoubleAligned(base: nat)
    requires base % 8 == 0
    ensures IsPow2(8) && AlignUp(base + 4, 8) == base + 8
  {
    assert IsPow2(8);
    EightAligned(base);
    var r := AlignUp(base + 4, 8);
    AlignUpIsLeast(base + 4, 8, base + 8);
    MultiplesApart(base, r, 8);
  }

  /**
   * The demo in `main`: a 1024-byte heap, an `int` (4 bytes, aligned to 4), a
   * `double` (8 bytes, aligned to 8), then one `deallocate`. `new char[]` returns
   * memory aligned for any fundamental type, so `base` is a multiple of 8. One
   * `deallocate` for two allocations leaves the cursor where it was.
   */
  method Demo(base: nat) returns (intPtr: Option<nat>, doublePtr: Option<nat>, next: nat, allocations: nat)
    requires base % 8 == 0
    ensures intPtr == Some(base) && doublePtr == Some(base + 8)
    ensures next == base + 16 && allocations == 1
  {
    var bump := new BumpAllocator(1024, base);
    DemoSteps(base);
    intPtr := bump.Allocate(4, 4);
    doublePtr := bump.Allocate(8, 8);
    bump.Deallocate();
    next, allocations := bump.next, bump.allocations;
  }
}
