/**
 * ch04/slice_alloc.c: a `Slice` is a pointer and a length. `createSlice` builds
 * one from a fresh `malloc` block, `freeSlice` releases it through a pointer,
 * and `main` fills it with 1..len and prints it. Whether `malloc` succeeds is
 * a parameter; `null` stands for `NULL`.
 */
module SliceAlloc {
  import opened Text

  class Slice {
    var ptr: array?<int>
    var len: nat

    constructor (ptr: array?<int>, len: nat)
      ensures this.ptr == ptr && this.len == len
    {
      this.ptr := ptr;
      this.len := len;
    }
  }

  /**
   * `createSlice(length)`: the length is recorded whether or not `malloc`
   * returned a block; the result of `malloc` is not checked.
   */
  method CreateSlice(length: nat, mallocSucceeds: bool) returns (slice: Slice)
    ensures fresh(slice)
    ensures slice.len == length
    ensures mallocSucceeds ==> slice.ptr != null && fresh(slice.ptr) && slice.ptr.Length == length
    ensures !mallocSucceeds ==> slice.ptr == null
  {
    var ptr: array?<int> := null;
    if mallocSucceeds {
      ptr := new int[length];
    }
    slice := new Slice(ptr, length);
  }

  /** `freeSlice(&slice)`: the pointer is released and reset, the length zeroed. */
  method FreeSlice(slice: Slice)
    modifies slice
    ensures slice.ptr == null && slice.len == 0
  {
    slice.ptr := null;
    slice.len := 0;
  }

  /** The fill loop of `main`: `slice.ptr[i] = i + 1` for every `i < slice.len`. */
  method Fill(slice: Slice)
    requires slice.ptr != null && slice.ptr.Length == slice.len
    modifies slice.ptr
    ensures forall i :: 0 <= i < slice.len ==> slice.ptr[i] == i + 1
  {
    var i := 0;
    while i < slice.len
      invariant 0 <= i <= slice.len
      invariant forall k :: 0 <= k < i ==> slice.ptr[k] == k + 1
    {
      slice.ptr[i] := i + 1;
      i := i + 1;
    }
  }

  /** The print loop of `main` and the final `printf("\n")`. */
  method Render(slice: Slice) returns (out: string)
    requires slice.ptr != null && slice.ptr.Length == slice.len
    ensures out == Terminated(Decimals(slice.ptr[..slice.len]), " ") + "\n"
  {
    out := "";
    var i := 0;
    while i < slice.len
      invariant 0 <= i <= slice.len
      invariant out == Terminated(Decimals(slice.ptr[..slice.len][..i]), " ")
    {
      TerminatedDecimalsSnoc(slice.ptr[..slice.len], i, " ");
      out := out + IntToString(slice.ptr[i]) + " ";
      i := i + 1;
    }
    assert slice.ptr[..slice.len][..slice.len] == slice.ptr[..slice.len];
    out := out + "\n";
  }

  /**
   * `main`: a slice of 5, filled and printed as "1 2 3 4 5 \n", then freed.
   * `main` writes through the pointer unchecked, so this run is the one where
   * `malloc` succeeds.
   */
  method Demo() returns (out: string, ptrAfter: array?<int>, lenAfter: nat)
    ensures out == "1 2 3 4 5 \n"
    ensures ptrAfter == null && lenAfter == 0
  {
    var slice := CreateSlice(5, true);
    Fill(slice);
    assert slice.ptr[..slice.len] == [1, 2, 3, 4, 5];
    out := Render(slice);
    FilledText([1, 2, 3, 4, 5]);
    FreeSlice(slice);
    ptrAfter, lenAfter := slice.ptr, slice.len;
  }

  lemma FilledText(xs: seq<int>)
    requires xs == [1, 2, 3, 4, 5]
    ensures Terminated(Decimals(xs), " ") + "\n" == "1 2 3 4 5 \n"
  {
    var ds := ["1", "2", "3", "4", "5"];
    forall k | 0 <= k < 5
      ensures Decimals(xs)[k] == ds[k]
    {
      assert xs[k] == k + 1 && IntToString(k + 1) == [DigitChar(k + 1)];
    }
    assert Decimals(xs) == ds;
    FilledTerminated(ds);
  }

  lemma FilledTerminated(ds: seq<string>)
    requires ds == ["1", "2", "3", "4", "5"]
    ensures Terminated(ds, " ") == "1 2 3 4 5 "
  {
    assert ds[5..] == [] && ds[0..] == ds;
    TerminatedCons(ds, 4, " ");
    TerminatedCons(ds, 3, " ");
    TerminatedCons(ds, 2, " ");
    TerminatedCons(ds, 1, " ");
    TerminatedCons(ds, 0, " ");
  }

  lemma TerminatedCons(parts: seq<string>, i: nat, term: string)
    requires i < |parts|
    ensures Terminated(parts[i..], term) == parts[i] + term + Terminated(parts[i + 1..], term)
  {
    assert parts[i..][1..] == parts[i + 1..];
  }
}
