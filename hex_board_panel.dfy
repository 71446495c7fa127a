/**
 * The board panel's cell logic: hex distance, the core cells around the
 * centre and the cells highlighted around a selected cell.
 */
module HexBoardPanel {
  import opened Wrappers
  import opened Hex
  import opened SeqUtil
  import Engine
  import Geometry

  function Abs(x: int): nat
  {
    if x < 0 then -x else x
  }

  function Max3(a: int, b: int, c: int): int
  {
    if a >= b && a >= c then a else if b >= c then b else c
  }

  /** `axialDistance`: the largest of the three cube-coordinate differences. */
  function AxialDistance(a: Axial, b: Axial): (d: nat)
    ensures d >= Abs(a.q - b.q) && d >= Abs(a.r - b.r) && d >= Abs(a.q + a.r - b.q - b.r)
    ensures d == Abs(a.q - b.q) || d == Abs(a.r - b.r) || d == Abs(a.q + a.r - b.q - b.r)
  {
    var dq := a.q - b.q;
    var dr := a.r - b.r;
    var ds := -a.q - a.r - (-b.q - b.r);
    Max3(Abs(dq), Abs(dr), Abs(ds))
  }

  lemma AxialDistanceSymmetric(a: Axial, b: Axial)
    ensures AxialDistance(a, b) == AxialDistance(b, a)
  {
  }

  lemma AxialDistanceZero(a: Axial, b: Axial)
    ensures AxialDistance(a, b) == 0 <==> a == b
  {
  }

  const Center := Axial(0, 0)

  /** Distance from the centre is the board test of the engine. */
  lemma DistanceFromCenter(c: Axial, radius: int)
    ensures AxialDistance(c, Center) <= radius <==> Engine.IsWithinBoard(c, radius)
  {
  }

  /** The cells at distance exactly 1 are the six neighbours. */
  lemma DistanceOneIsNeighbor(a: Axial, b: Axial)
    ensures AxialDistance(a, b) == 1 <==> exists k :: 0 <= k < 6 && a == Add(b, NeighborOffsets[k])
  {
    if AxialDistance(a, b) == 1 {
      var dq, dr := a.q - b.q, a.r - b.r;
      var k := if dq == 1 && dr == 0 then 0
        else if dq == 1 then 1
        else if dq == 0 && dr == -1 then 2
        else if dq == -1 && dr == 0 then 3
        else if dq == -1 then 4
        else 5;
      assert a == Add(b, NeighborOffsets[k]);
    }
  }

  /** Every neighbour offset is one step from the centre. */
  lemma NeighborOffsetsAtDistanceOne()
    ensures forall k :: 0 <= k < 6 ==> AxialDistance(NeighborOffsets[k], Center) == 1
  {
  }

  /** `hexes.filter(cell => axialDistance(cell, center) <= 1)`. */
  function CoreCells(hexes: seq<Axial>): (core: seq<Axial>)
    ensures forall c :: c in core <==> c in hexes && AxialDistance(c, Center) <= 1
    ensures |core| <= |hexes|
    ensures NoDuplicates(hexes) ==> NoDuplicates(core)
  {
    if hexes == [] then []
    else
      var init := hexes[..|hexes| - 1];
      var last := hexes[|hexes| - 1];
      assert hexes == init + [last];
      var front := CoreCells(init);
      var core := if AxialDistance(last, Center) <= 1 then front + [last] else front;
      assert NoDuplicates(hexes) ==> NoDuplicates(core) by {
        if NoDuplicates(hexes) {
          assert NoDuplicates(init);
          assert last !in init;
        }
      }
      core
  }

  /** The centre and its six neighbours. */
  const CoreSet: set<Axial> :=
    {Axial(0, 0), Axial(1, 0), Axial(1, -1), Axial(0, -1), Axial(-1, 0), Axial(-1, 1), Axial(0, 1)}

  lemma WithinOneIsCore(c: Axial)
    ensures AxialDistance(c, Center) <= 1 <==> c in CoreSet
  {
  }

  lemma CoreSetSize()
    ensures |CoreSet| == 7
  {
    var s := [Axial(0, 0), Axial(1, 0), Axial(1, -1), Axial(0, -1), Axial(-1, 0), Axial(-1, 1), Axial(0, 1)];
    assert Elements(s) == CoreSet;
    ElementsCount(s);
  }

  /** On a board of radius at least 1 the core cells are the centre and its six neighbours. */
  lemma CoreCellsElements(radius: int)
    requires radius >= 1
    ensures Elements(CoreCells(Geometry.Disk(radius))) == CoreSet
  {
    var core := CoreCells(Geometry.Disk(radius));
    forall c
      ensures c in core <==> c in CoreSet
    {
      Geometry.DiskMembership(radius, c);
      WithinOneIsCore(c);
    }
  }

  /** On a board of radius at least 1 there are exactly seven core cells. */
  lemma CoreCellsCount(radius: int)
    requires radius >= 1
    ensures |CoreCells(Geometry.Disk(radius))| == 7
  {
    Geometry.DiskOrdered(radius);
    CoreCellsElements(radius);
    ElementsCount(CoreCells(Geometry.Disk(radius)));
    CoreSetSize();
  }

  /**
   * `highlightedCells`: nothing without a selection, otherwise the keys of the
   * listed cells one step from the selected cell.
   */
  function HighlightedCells(hexes: seq<Axial>, selected: Option<Axial>): (keys: set<string>)
    ensures selected.None? ==> keys == {}
    ensures selected.Some? ==> forall key :: key in keys <==>
      exists c :: c in hexes && AxialDistance(c, selected.value) == 1 && AxialKey(c) == key
  {
    if selected.None? then {}
    else set c | c in hexes && AxialDistance(c, selected.value) == 1 :: AxialKey(c)
  }

  /** The neighbour keys of a cell, as a set. */
  function NeighborKeySet(hex: Axial): set<string>
  {
    set k | 0 <= k < 6 :: AxialKey(Add(hex, NeighborOffsets[k]))
  }

  lemma NeighborKeySetSize(hex: Axial)
    ensures |NeighborKeySet(hex)| <= 6
  {
    var s := seq(6, k requires 0 <= k < 6 => AxialKey(Add(hex, NeighborOffsets[k])));
    assert NeighborKeySet(hex) == Elements(s) by {
      forall x | x in NeighborKeySet(hex)
        ensures x in Elements(s)
      {
        var k :| 0 <= k < 6 && x == AxialKey(Add(hex, NeighborOffsets[k]));
        assert s[k] == x;
      }
    }
    ElementsCount(s);
  }

  /** key is the key of one of the cell's six neighbours that lies on the board. */
  predicate OnBoardNeighborKey(radius: int, selected: Axial, key: string)
  {
    exists k :: 0 <= k < 6 && Engine.IsWithinBoard(Add(selected, NeighborOffsets[k]), radius)
      && key == AxialKey(Add(selected, NeighborOffsets[k]))
  }

  /** The k-th neighbour of a cell is highlighted exactly when it lies on the board. */
  lemma HighlightedNeighbor(radius: int, selected: Axial, k: int)
    requires 0 <= k < 6
    ensures var n := Add(selected, NeighborOffsets[k]);
      AxialKey(n) in HighlightedCells(Geometry.Disk(radius), Some(selected)) <==> Engine.IsWithinBoard(n, radius)
  {
    var n := Add(selected, NeighborOffsets[k]);
    Geometry.DiskMembership(radius, n);
    DistanceOneIsNeighbor(n, selected);
    if AxialKey(n) in HighlightedCells(Geometry.Disk(radius), Some(selected)) {
      var c :| c in Geometry.Disk(radius) && AxialDistance(c, selected) == 1 && AxialKey(c) == AxialKey(n);
      AxialKeyInjective(c, n);
    }
  }

  /**
   * With a cell selected on a board, the highlighted keys are exactly those of
   * the selected cell's neighbours that lie on the board: at most six, never
   * the selected cell's own key.
   */
  lemma HighlightedCellsOnBoard(radius: int, selected: Axial)
    ensures var keys := HighlightedCells(Geometry.Disk(radius), Some(selected));
      forall key :: key in keys <==> OnBoardNeighborKey(radius, selected, key)
    ensures var keys := HighlightedCells(Geometry.Disk(radius), Some(selected));
      && |keys| <= 6
      && AxialKey(selected) !in keys
      && (forall key :: key in keys ==> exists c :: c in Geometry.Disk(radius) && Engine.IsWithinBoard(c, radius) && AxialKey(c) == key)
  {
    var disk := Geometry.Disk(radius);
    var keys := HighlightedCells(disk, Some(selected));
    assert keys <= NeighborKeySet(selected) by {
      forall key | key in keys
        ensures key in NeighborKeySet(selected)
      {
        var c :| c in disk && AxialDistance(c, selected) == 1 && AxialKey(c) == key;
        DistanceOneIsNeighbor(c, selected);
      }
    }
    NeighborKeySetSize(selected);
    assert |keys| <= |NeighborKeySet(selected)| by {
      SubsetSize(keys, NeighborKeySet(selected));
    }
    if AxialKey(selected) in keys {
      var c :| c in disk && AxialDistance(c, selected) == 1 && AxialKey(c) == AxialKey(selected);
      AxialKeyInjective(c, selected);
      assert false;
    }
    forall key | key in keys
      ensures exists c :: c in disk && Engine.IsWithinBoard(c, radius) && AxialKey(c) == key
    {
      var c :| c in disk && AxialDistance(c, selected) == 1 && AxialKey(c) == key;
      Geometry.DiskMembership(radius, c);
    }
    forall key
      ensures key in keys <==> OnBoardNeighborKey(radius, selected, key)
    {
      if key in keys {
        var c :| c in disk && AxialDistance(c, selected) == 1 && AxialKey(c) == key;
        DistanceOneIsNeighbor(c, selected);
        var k :| 0 <= k < 6 && c == Add(selected, NeighborOffsets[k]);
        HighlightedNeighbor(radius, selected, k);
      } else {
        forall k | 0 <= k < 6
          ensures !(Engine.IsWithinBoard(Add(selected, NeighborOffsets[k]), radius) && key == AxialKey(Add(selected, NeighborOffsets[k])))
        {
          HighlightedNeighbor(radius, selected, k);
        }
      }
    }
  }

  lemma SubsetSize<T>(a: set<T>, b: set<T>)
    requires a <= b
    ensures |a| <= |b|
  {
    assert b == a + (b - a);
  }
}
