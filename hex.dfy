/** Axial hex coordinates and the string keys the board uses to address cells. */
module Hex {
  import Numerals

  datatype Axial = Axial(q: int, r: int)

  function Add(a: Axial, b: Axial): Axial
  {
    Axial(a.q + b.q, a.r + b.r)
  }

  /** `${q},${r}`: the key of a cell in the board's maps and sets. */
  function AxialKey(a: Axial): (key: string)
    ensures CommaIndex(key) < |key|
    ensures key[..CommaIndex(key)] == Numerals.IntToString(a.q)
    ensures key[CommaIndex(key) + 1..] == Numerals.IntToString(a.r)
  {
    var x, y := Numerals.IntToString(a.q), Numerals.IntToString(a.r);
    CommaPosition(x, y);
    x + "," + y
  }

  /** The six unit steps, in the order east, then counter-clockwise. */
  const NeighborOffsets: seq<Axial> :=
    [Axial(1, 0), Axial(1, -1), Axial(0, -1), Axial(-1, 0), Axial(-1, 1), Axial(0, 1)]

  /** Distinct cells have distinct keys, so keyed maps and sets never merge two cells. */
  lemma AxialKeyInjective(a: Axial, b: Axial)
    requires AxialKey(a) == AxialKey(b)
    ensures a == b
  {
    var sa, sb := Numerals.IntToString(a.q), Numerals.IntToString(b.q);
    var ta, tb := Numerals.IntToString(a.r), Numerals.IntToString(b.r);
    var k := AxialKey(a);
    CommaPosition(sa, ta);
    CommaPosition(sb, tb);
    assert sa == k[..|sa|] == sb;
    assert ta == k[|sa| + 1..] == tb;
    Numerals.IntToStringInjective(a.q, b.q);
    Numerals.IntToStringInjective(a.r, b.r);
  }

  /** Index of the first ',' in s, or |s| when there is none. */
  function CommaIndex(s: string): (i: nat)
    ensures i <= |s|
  {
    if s == [] || s[0] == ',' then 0 else 1 + CommaIndex(s[1..])
  }

  /** A rendered integer holds no ',', so the first ',' of a key ends its q part. */
  lemma {:induction false} CommaPosition(x: string, y: string)
    requires forall k :: 0 <= k < |x| ==> x[k] == '-' || Numerals.IsDigit(x[k])
    ensures CommaIndex(x + "," + y) == |x|
  {
    if x != [] {
      assert (x + "," + y)[1..] == x[1..] + "," + y;
      CommaPosition(x[1..], y);
    }
  }

  lemma NeighborOffsetsDistinct()
    ensures |NeighborOffsets| == 6
    ensures forall i, j :: 0 <= i < j < 6 ==> NeighborOffsets[i] != NeighborOffsets[j]
  {
  }
}
