/**
 * The growable buffer of ch04/dynArray.c: a buffer, a size and a capacity,
 * updated in place through a `DynamicArray*`.
 *
 * `buffer == null` stands for the C `NULL` buffer. Whether `realloc` succeeds is
 * not up to the program, so `Append` takes the outcome as a parameter.
 */
module DynArray {
  import opened Arith

  /** The buffer is grown when `size + 1 >= capacity`. */
  predicate NeedsGrowth(size: int, capacity: int) {
    size + 1 >= capacity
  }

  /** `newCap`: the capacity after growth. */
  function GrownCapacity(capacity: nat): (r: nat)
    ensures r > capacity
    ensures (capacity == 0 || IsPow2(capacity)) ==> IsPow2(r)
    ensures capacity > 0 ==> r == 2 * capacity
  {
    if capacity == 0 then 1
    else
      Pow2Double(capacity);
      capacity * 2
  }

  /**
   * `realloc(buffer, newCap * sizeof(int))` when it succeeds: a new block of
   * `newCap` ints whose first `oldCap` ints are those of the old block.
   */
  method Realloc(buffer: array?<int>, oldCap: nat, newCap: nat) returns (r: array<int>)
    requires buffer == null ==> oldCap == 0
    requires buffer != null ==> buffer.Length == oldCap
    requires oldCap <= newCap
    ensures fresh(r) && r.Length == newCap
    ensures buffer != null ==> r[..oldCap] == buffer[..oldCap]
  {
    r := new int[newCap];
    if buffer != null {
      forall i | 0 <= i < oldCap {
        r[i] := buffer[i];
      }
    }
  }

  class DynamicArray {
    var buffer: array?<int>
    var size: int
    var capacity: int

    /**
     * `size` is within `capacity`, the buffer exists exactly when the capacity
     * is positive, and the capacity is 0 or a power of two. Because growth
     * happens one element early, the buffer is only ever full at capacity 1 or 2.
     */
    ghost predicate Valid()
      reads this
    {
      && 0 <= size <= capacity
      && (buffer == null <==> capacity == 0)
      && (buffer != null ==> buffer.Length == capacity)
      && (capacity == 0 || IsPow2(capacity))
      && (capacity <= 2 || size < capacity)
    }

    /** The elements stored so far, first to last. */
    ghost function Elements(): seq<int>
      reads this, buffer
      requires Valid()
    {
      if buffer == null then [] else buffer[..size]
    }

    /** `DynamicArray dynArray; init(&dynArray);` */
    constructor ()
      ensures Valid() && buffer == null && size == 0 && capacity == 0
    {
      new;
      Init();
    }

    /** `init`: no buffer, no elements, no capacity. */
    method Init()
      modifies this
      ensures Valid() && buffer == null && size == 0 && capacity == 0
    {
      buffer := null;
      size := 0;
      capacity := 0;
    }

    /** `append(dynArray, element)`. */
    method Append(element: int, reallocSucceeds: bool)
      requires Valid()
      modifies this, buffer
      ensures Valid()
      ensures NeedsGrowth(old(size), old(capacity)) && !reallocSucceeds ==>
                && buffer == old(buffer) && size == old(size) && capacity == old(capacity)
                && Elements() == old(Elements())
      ensures !NeedsGrowth(old(size), old(capacity)) ==>
                && buffer == old(buffer) && size == old(size) + 1 && capacity == old(capacity)
                && Elements() == old(Elements()) + [element]
      ensures NeedsGrowth(old(size), old(capacity)) && reallocSucceeds ==>
                && fresh(buffer) && size == old(size) + 1 && capacity == GrownCapacity(old(capacity))
                && Elements() == old(Elements()) + [element]
    {
      if size + 1 >= capacity {
        var newCap := if capacity == 0 then 1 else capacity * 2;
        assert newCap == GrownCapacity(capacity);
        if !reallocSucceeds {
          // an error message is printed and nothing changes
          return;
        }
        var newArray := Realloc(buffer, capacity, newCap);
        buffer := newArray;
        capacity := newCap;
      }
      buffer[size] := element;
      size := size + 1;
    }

    /** `pop(dynArray)`: the last element, or the sentinel -1 when there is none. */
    method Pop() returns (x: int)
      requires Valid()
      modifies this
      ensures Valid()
      ensures buffer == old(buffer) && capacity == old(capacity)
      ensures old(size) > 0 ==>
                && x == old(Elements())[old(size) - 1]
                && size == old(size) - 1
                && Elements() == old(Elements())[..old(size) - 1]
      ensures old(size) == 0 ==> x == -1 && size == 0
    {
      if size > 0 {
        var lastElement := buffer[size - 1];
        size := size - 1;
        return lastElement;
      } else {
        // an error message is printed
        return -1;
      }
    }

    /** `deinit`: the buffer is released and the buffer is back in its initial state. */
    method Deinit()
      modifies this
      ensures Valid() && buffer == null && size == 0 && capacity == 0
    {
      Init();
    }
  }

  /**
   * `main`: append 10, 20, 30, read them back, pop once, read the first two
   * again, then deinit. Every `realloc` succeeds in this run.
   */
  method Demo() returns (at0: int, at1: int, at2: int, capacity: int, popped: int, after0: int, after1: int)
    ensures at0 == 10 && at1 == 20 && at2 == 30 && capacity == 4
    ensures popped == 30 && after0 == 10 && after1 == 20
  {
    var d := new DynamicArray();
    d.Append(10, true);
    assert d.Elements() == [10] && d.capacity == 1;
    d.Append(20, true);
    assert d.Elements() == [10, 20] && d.capacity == 2;
    d.Append(30, true);
    assert d.Elements() == [10, 20, 30] && d.capacity == 4;
    at0, at1, at2 := d.buffer[0], d.buffer[1], d.buffer[2];
    capacity := d.capacity;
    popped := d.Pop();
    assert d.Elements() == [10, 20];
    after0, after1 := d.buffer[0], d.buffer[1];
    d.Deinit();
  }
}
