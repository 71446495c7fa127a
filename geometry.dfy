/**
 * The integer part of the board geometry: the hexagonal disk of cells
 * within a radius, enumerated column by column, and the key-to-cell map.
 */
module Geometry {
  import opened Hex
  import Engine

  function Max(a: int, b: int): int
  {
    if a >= b then a else b
  }

  function Min(a: int, b: int): int
  {
    if a <= b then a else b
  }

  /** The first r of column q: `Math.max(-radius, -q - radius)`. */
  function ColumnLow(radius: int, q: int): int
  {
    Max(-radius, -q - radius)
  }

  /** The last r of column q: `Math.min(radius, -q + radius)`. */
  function ColumnHigh(radius: int, q: int): int
  {
    Min(radius, -q + radius)
  }

  /** The cells the inner loop pushes for column q, r ascending. */
  function Column(radius: int, q: int): seq<Axial>
  {
    var lo, hi := ColumnLow(radius, q), ColumnHigh(radius, q);
    seq(Max(0, hi - lo + 1), k requires 0 <= k < Max(0, hi - lo + 1) => Axial(q, lo + k))
  }

  /** The first n columns, q = -radius .. -radius + n - 1. */
  function Columns(radius: int, n: nat): seq<Axial>
  {
    if n == 0 then [] else Columns(radius, n - 1) + Column(radius, -radius + n - 1)
  }

  /** What `buildHexes(radius)` returns. */
  function Disk(radius: int): seq<Axial>
  {
    if radius < 0 then [] else Columns(radius, 2 * radius + 1)
  }

  /** `buildHexes`: the nested loops over q, then over r between the column's bounds. */
  method BuildHexes(radius: int) returns (hexes: seq<Axial>)
    ensures hexes == Disk(radius)
  {
    hexes := [];
    var q := -radius;
    while q <= radius
      invariant radius >= 0 ==> -radius <= q <= radius + 1
      invariant radius < 0 ==> q == -radius
      invariant radius >= 0 ==> hexes == Columns(radius, q + radius)
      invariant radius < 0 ==> hexes == []
    {
      var r1 := Max(-radius, -q - radius);
      var r2 := Min(radius, -q + radius);
      var r := r1;
      ghost var column := Column(radius, q);
      while r <= r2
        invariant r1 <= r <= r2 + 1
        invariant hexes == Columns(radius, q + radius) + column[..r - r1]
      {
        assert column[..r - r1 + 1] == column[..r - r1] + [Axial(q, r)];
        hexes := hexes + [Axial(q, r)];
        r := r + 1;
      }
      assert column[..r - r1] == column;
      q := q + 1;
    }
    if radius >= 0 {
      assert q + radius == 2 * radius + 1;
    }
  }

  /** `makeHexagonDisk`: the same cells as `buildHexes`. */
  method MakeHexagonDisk(radius: int) returns (hexes: seq<Axial>)
    ensures hexes == Disk(radius)
  {
    hexes := BuildHexes(radius);
  }

  lemma {:induction false} ColumnsMembership(radius: int, n: nat, h: Axial)
    ensures h in Columns(radius, n) <==>
      -radius <= h.q < -radius + n && ColumnLow(radius, h.q) <= h.r <= ColumnHigh(radius, h.q)
  {
    if n > 0 {
      ColumnsMembership(radius, n - 1, h);
      var c := Column(radius, -radius + n - 1);
      if h.q == -radius + n - 1 && ColumnLow(radius, h.q) <= h.r <= ColumnHigh(radius, h.q) {
        assert c[h.r - ColumnLow(radius, h.q)] == h;
      }
    }
  }

  /** A cell is enumerated exactly when it lies within the radius of the centre. */
  lemma DiskMembership(radius: int, h: Axial)
    ensures h in Disk(radius) <==> Engine.IsWithinBoard(h, radius)
  {
    if radius >= 0 {
      ColumnsMembership(radius, 2 * radius + 1, h);
    }
  }

  /** Column-major order: q ascending, then r ascending. */
  predicate LexLess(a: Axial, b: Axial)
  {
    a.q < b.q || (a.q == b.q && a.r < b.r)
  }

  predicate StrictlyOrdered(s: seq<Axial>)
  {
    forall i, j :: 0 <= i < j < |s| ==> LexLess(s[i], s[j])
  }

  lemma {:induction false} ColumnsOrdered(radius: int, n: nat)
    ensures StrictlyOrdered(Columns(radius, n))
    ensures forall h :: h in Columns(radius, n) ==> h.q < -radius + n
  {
    if n > 0 {
      ColumnsOrdered(radius, n - 1);
      var front, c := Columns(radius, n - 1), Column(radius, -radius + n - 1);
      var s := front + c;
      forall i, j | 0 <= i < j < |s|
        ensures LexLess(s[i], s[j])
      {
        if j < |front| {
          assert s[i] == front[i] && s[j] == front[j];
        } else if i < |front| {
          assert s[i] == front[i] && front[i] in front;
        }
      }
    }
  }

  /** The enumeration is strictly increasing, so no cell appears twice. */
  lemma DiskOrdered(radius: int)
    ensures StrictlyOrdered(Disk(radius))
    ensures forall i, j :: 0 <= i < j < |Disk(radius)| ==> Disk(radius)[i] != Disk(radius)[j]
  {
    if radius >= 0 {
      ColumnsOrdered(radius, 2 * radius + 1);
    }
  }

  /** Column q of a disk of radius R holds 2R + 1 - |q| cells. */
  lemma ColumnLength(radius: int, q: int)
    requires -radius <= q <= radius
    ensures |Column(radius, q)| == 2 * radius + 1 - Engine.Abs(q)
  {
  }

  lemma LeftStep(radius: int, n: int)
    ensures 2 * (n - 1) * (radius + 1) + (n - 1) * (n - 2) + 2 * (radius + n)
      == 2 * n * (radius + 1) + n * (n - 1)
  {
  }

  lemma RightStep(radius: int, m: int)
    ensures 4 * radius * (m - 1) - (m - 1) * (m - 2) + 2 * (2 * radius + 1 - m)
      == 4 * radius * m - m * (m - 1)
  {
  }

  /** Twice the size of the first n <= R + 1 columns (those with q <= 0). */
  lemma {:induction false} LeftColumnsCount(radius: int, n: nat)
    requires radius >= 0 && n <= radius + 1
    ensures 2 * |Columns(radius, n)| == 2 * n * (radius + 1) + n * (n - 1)
  {
    if n > 0 {
      LeftColumnsCount(radius, n - 1);
      ColumnLength(radius, -radius + n - 1);
      assert |Column(radius, -radius + n - 1)| == radius + n;
      LeftStep(radius, n);
    }
  }

  /** Twice the size of the first R + 1 + m columns, m of them right of the centre. */
  lemma {:induction false} RightColumnsCount(radius: int, m: nat)
    requires radius >= 0 && m <= radius
    ensures 2 * |Columns(radius, radius + 1 + m)|
      == 2 * (radius + 1) * (radius + 1) + (radius + 1) * radius + 4 * radius * m - m * (m - 1)
  {
    if m == 0 {
      LeftColumnsCount(radius, radius + 1);
    } else {
      RightColumnsCount(radius, m - 1);
      ColumnLength(radius, m);
      assert |Column(radius, m)| == 2 * radius + 1 - m;
      RightStep(radius, m);
    }
  }

  /** A disk of radius R >= 0 has 3R(R + 1) + 1 cells; a negative radius gives none. */
  lemma DiskCount(radius: int)
    ensures radius >= 0 ==> |Disk(radius)| == 3 * radius * (radius + 1) + 1
    ensures radius < 0 ==> Disk(radius) == []
  {
    if radius >= 0 {
      RightColumnsCount(radius, radius);
      assert 2 * (radius + 1) * (radius + 1) + (radius + 1) * radius + 4 * radius * radius - radius * (radius - 1)
          == 2 * (3 * radius * (radius + 1) + 1);
    }
  }

  /** The map `buildHexMap` fills: each hex stored under its key, later writes winning. */
  function HexMap(hexes: seq<Axial>): map<string, Axial>
  {
    if hexes == [] then map[]
    else HexMap(hexes[..|hexes| - 1])[AxialKey(hexes[|hexes| - 1]) := hexes[|hexes| - 1]]
  }

  /** `buildHexMap`: one `map.set(axialKey(hex), hex)` per hex, in order. */
  method BuildHexMap(hexes: seq<Axial>) returns (m: map<string, Axial>)
    ensures m == HexMap(hexes)
  {
    m := map[];
    var i := 0;
    while i < |hexes|
      invariant 0 <= i <= |hexes|
      invariant m == HexMap(hexes[..i])
    {
      assert hexes[..i + 1][..i] == hexes[..i];
      m := m[AxialKey(hexes[i]) := hexes[i]];
      i := i + 1;
    }
    assert hexes[..i] == hexes;
  }

  lemma KeySetSnoc(init: seq<Axial>, last: Axial)
    ensures (set h | h in init + [last] :: AxialKey(h)) == (set h | h in init :: AxialKey(h)) + {AxialKey(last)}
  {
  }

  /** The keys are exactly the keys of the input hexes. */
  lemma {:induction false} HexMapKeys(hexes: seq<Axial>)
    ensures HexMap(hexes).Keys == set h | h in hexes :: AxialKey(h)
  {
    if hexes != [] {
      var init, last := hexes[..|hexes| - 1], hexes[|hexes| - 1];
      HexMapKeys(init);
      assert hexes == init + [last];
      KeySetSnoc(init, last);
      assert HexMap(hexes).Keys == HexMap(init).Keys + {AxialKey(last)};
    }
  }

  /** Each input hex is found under its own key: a later duplicate overwrites an equal cell. */
  lemma {:induction false} HexMapValues(hexes: seq<Axial>)
    ensures forall h :: h in hexes ==> AxialKey(h) in HexMap(hexes) && HexMap(hexes)[AxialKey(h)] == h
  {
    if hexes != [] {
      var init, last := hexes[..|hexes| - 1], hexes[|hexes| - 1];
      HexMapValues(init);
      assert hexes == init + [last];
      forall h | h in hexes
        ensures AxialKey(h) in HexMap(hexes) && HexMap(hexes)[AxialKey(h)] == h
      {
        if AxialKey(h) == AxialKey(last) {
          AxialKeyInjective(h, last);
        } else {
          assert h in init;
        }
      }
    }
  }

  /** A hex not yet seen has a key the map does not hold yet. */
  lemma HexMapFreshKey(hexes: seq<Axial>, h: Axial)
    requires h !in hexes
    ensures AxialKey(h) !in HexMap(hexes)
  {
    HexMapKeys(hexes);
    if AxialKey(h) in HexMap(hexes) {
      var g :| g in hexes && AxialKey(g) == AxialKey(h);
      AxialKeyInjective(g, h);
    }
  }

  lemma HexMapSizeRepeat(init: seq<Axial>, last: Axial)
    requires last in init && |HexMap(init)| == |set h | h in init|
    ensures |HexMap(init + [last])| == |set h | h in init + [last]|
  {
    assert (init + [last])[..|init|] == init;
    HexMapValues(init);
    assert (set h | h in init + [last]) == set h | h in init;
  }

  lemma HexMapSizeFresh(init: seq<Axial>, last: Axial)
    requires last !in init && |HexMap(init)| == |set h | h in init|
    ensures |HexMap(init + [last])| == |set h | h in init + [last]|
  {
    assert (init + [last])[..|init|] == init;
    HexMapFreshKey(init, last);
    assert (set h | h in init + [last]) == (set h | h in init) + {last};
  }

  /** The map holds one entry per distinct input hex. */
  lemma {:induction false} HexMapSize(hexes: seq<Axial>)
    ensures |HexMap(hexes)| == |set h | h in hexes|
  {
    if hexes != [] {
      var init, last := hexes[..|hexes| - 1], hexes[|hexes| - 1];
      HexMapSize(init);
      assert hexes == init + [last];
      if last in init {
        HexMapSizeRepeat(init, last);
      } else {
        HexMapSizeFresh(init, last);
      }
    }
  }
}
