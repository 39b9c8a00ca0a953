/**
 * ch06/simple_dyn_array.c: a `malloc`ed block of ten `int`s is filled with
 * `a[i] = i * 2`, then printed as a bracketed, comma-separated list with no
 * trailing newline. Only indices 0..9 are touched (every access is bounds-checked).
 */
module SimpleDynArray {
  import opened Text

  /** The elements printed as "[e0, e1, ..., en]". */
  function BracketList(xs: seq<int>): (s: string)
    requires |xs| >= 1
    ensures |s| >= 3 && s[0] == '[' && s[|s| - 1] == ']'
  {
    "[" + Join(Decimals(xs), ", ") + "]"
  }

  /** The first loop: `dynArray[i] = i * 2` for `i` in 0..9. */
  method FillDoubled(a: array<int>)
    requires a.Length == 10
    modifies a
    ensures forall i :: 0 <= i < 10 ==> a[i] == 2 * i
  {
    for i := 0 to 10
      invariant forall k :: 0 <= k < i ==> a[k] == 2 * k
    {
      a[i] := i * 2;
    }
  }

  /** The printing: "[", elements 0..8 each followed by ", ", then element 9 and "]". */
  method Render(a: array<int>) returns (out: string)
    requires a.Length == 10
    ensures out == BracketList(a[..])
  {
    // the text printed by the loop, after the opening "["
    var items := "";
    for i := 0 to 9
      invariant items == Terminated(Decimals(a[..][..i]), ", ")
    {
      TerminatedDecimalsSnoc(a[..], i, ", ");
      items := items + IntToString(a[i]) + ", ";
    }
    out := "[" + items + IntToString(a[9]) + "]";
    BracketListSplit(a[..]);
  }

  /** The last element is printed after the loop, with the closing bracket. */
  lemma BracketListSplit(xs: seq<int>)
    requires |xs| >= 1
    ensures BracketList(xs) == "[" + Terminated(Decimals(xs[..|xs| - 1]), ", ") + IntToString(xs[|xs| - 1]) + "]"
  {
    var parts := Decimals(xs);
    JoinAsTerminated(parts, ", ");
    assert parts[..|xs| - 1] == Decimals(xs[..|xs| - 1]);
    var t, last := Terminated(Decimals(xs[..|xs| - 1]), ", "), IntToString(xs[|xs| - 1]);
    assert Join(parts, ", ") == t + last;
    AppendAssoc("[", t, last);
  }

  /** `main`: the exact text printed. */
  method Demo() returns (out: string)
    ensures out == "[0, 2, 4, 6, 8, 10, 12, 14, 16, 18]"
  {
    var a := new int[10];
    FillDoubled(a);
    assert a[..] == [0, 2, 4, 6, 8, 10, 12, 14, 16, 18];
    out := Render(a);
    DoubledText(a[..]);
  }

  lemma DoubledText(xs: seq<int>)
    requires xs == [0, 2, 4, 6, 8, 10, 12, 14, 16, 18]
    ensures BracketList(xs) == "[0, 2, 4, 6, 8, 10, 12, 14, 16, 18]"
  {
    var lo, hi := ["0", "2", "4", "6", "8"], ["10", "12", "14", "16", "18"];
    DoubledDecimals(xs);
    JoinAppend(lo, hi, ", ");
    JoinedLow(lo);
    JoinedHigh(hi);
    Bracketed(Join(lo, ", "), Join(hi, ", "));
  }

  lemma JoinedLow(lo: seq<string>)
    requires lo == ["0", "2", "4", "6", "8"]
    ensures Join(lo, ", ") == "0, 2, 4, 6, 8"
  {
    JoinFive(lo);
    LowTail();
    assert ("2" + ", ") + "4, 6, 8" == "2, 4, 6, 8";
  }

  lemma LowTail()
    ensures ("4" + ", ") + (("6" + ", ") + "8") == "4, 6, 8"
  {
    assert ("6" + ", ") + "8" == "6, 8";
  }

  lemma JoinedHigh(hi: seq<string>)
    requires hi == ["10", "12", "14", "16", "18"]
    ensures Join(hi, ", ") == "10, 12, 14, 16, 18"
  {
    JoinFive(hi);
    HighTail();
    assert ("12" + ", ") + "14, 16, 18" == "12, 14, 16, 18";
  }

  lemma HighTail()
    ensures ("14" + ", ") + (("16" + ", ") + "18") == "14, 16, 18"
  {
    assert ("16" + ", ") + "18" == "16, 18";
  }

  lemma DoubledDecimals(xs: seq<int>)
    requires xs == [0, 2, 4, 6, 8, 10, 12, 14, 16, 18]
    ensures Decimals(xs) == ["0", "2", "4", "6", "8"] + ["10", "12", "14", "16", "18"]
  {
    assert IntToString(10) == "10" && IntToString(12) == "12" && IntToString(14) == "14";
    assert IntToString(16) == "16" && IntToString(18) == "18";
  }

  lemma JoinFive(p: seq<string>)
    requires |p| == 5
    ensures Join(p, ", ") == (p[0] + ", ") + ((p[1] + ", ") + ((p[2] + ", ") + ((p[3] + ", ") + p[4])))
  {
    assert p[1..][1..] == p[2..] && p[2..][1..] == p[3..] && p[3..][1..] == p[4..];
    assert Join(p[4..], ", ") == p[4];
    assert Join(p[3..], ", ") == (p[3] + ", ") + p[4];
    assert Join(p[2..], ", ") == (p[2] + ", ") + Join(p[3..], ", ");
    assert Join(p[1..], ", ") == (p[1] + ", ") + Join(p[2..], ", ");
  }

  lemma Bracketed(a: string, b: string)
    requires a == "0, 2, 4, 6, 8" && b == "10, 12, 14, 16, 18"
    ensures "[" + (a + ", " + b) + "]" == "[0, 2, 4, 6, 8, 10, 12, 14, 16, 18]"
  {
    var front, back := "[" + a + ", ", b + "]";
    AppendAssoc("[", a, ", ");
    AppendAssoc("[", a + ", ", b);
    AppendAssoc("[" + (a + ", "), b, "]");
    assert "[" + (a + ", " + b) + "]" == front + back;
    assert front == "[0, 2, 4, 6, 8, ";
    assert back == "10, 12, 14, 16, 18]";
  }
}
