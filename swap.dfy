/**
 * `swap` of ch03/swap.c: exchanges two `int`s through two pointers. Memory is an
 * `array<int>` and a pointer is an index into it, so the two pointers may alias.
 */
module Swap {

  /** The memory after `swap(&m[i], &m[j])`: the two cells trade values, all others keep theirs. */
  function Swapped(m: seq<int>, i: nat, j: nat): (r: seq<int>)
    requires i < |m| && j < |m|
    ensures |r| == |m|
    ensures r[i] == m[j] && r[j] == m[i]
    ensures forall k :: 0 <= k < |m| && k != i && k != j ==> r[k] == m[k]
  {
    m[i := m[j]][j := m[i]]
  }

  /** `swap(a, b)` with `a` pointing at `mem[i]` and `b` at `mem[j]`, through a temporary. */
  method SwapCells(mem: array<int>, i: nat, j: nat)
    requires i < mem.Length && j < mem.Length
    modifies mem
    ensures mem[..] == Swapped(old(mem[..]), i, j)
  {
    var temp := mem[i];
    mem[i] := mem[j];
    mem[j] := temp;
  }

  /** Swapping twice restores both values. */
  lemma SwapTwice(m: seq<int>, i: nat, j: nat)
    requires i < |m| && j < |m|
    ensures Swapped(Swapped(m, i, j), i, j) == m
  {
  }

  /** When both pointers name the same cell, nothing changes. */
  lemma SwapSame(m: seq<int>, i: nat)
    requires i < |m|
    ensures Swapped(m, i, i) == m
  {
  }

  /** Swapping is symmetric in its two pointers. */
  lemma SwapSymmetric(m: seq<int>, i: nat, j: nat)
    requires i < |m| && j < |m|
    ensures Swapped(m, i, j) == Swapped(m, j, i)
  {
  }

  /** `main`: a = 20, b = 56 in two distinct cells; after `swap(&a, &b)`, a = 56 and b = 20. */
  method Demo() returns (a: int, b: int)
    ensures a == 56 && b == 20
  {
    var mem := new int[2];
    mem[0], mem[1] := 20, 56;
    SwapCells(mem, 0, 1);
    a, b := mem[0], mem[1];
  }
}
