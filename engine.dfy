/**
 * The movement engine: facings are the six directions 0..5 (east, then
 * counter-clockwise), a card turns a piece by up to `maxSteps` facings and
 * moves it a number of steps in a direction relative to the chosen facing.
 */
module Engine {
  import opened Wrappers
  import opened Hex
  import opened SeqUtil

  /** One of the six absolute directions. */
  type Direction = d: int | 0 <= d < 6

  /** A direction relative to a facing: front, front-right, back-right, back, back-left, front-left. */
  datatype RelativeDirection = F | FR | BR | B | BL | FL

  datatype EnginePiece = EnginePiece(id: string, position: Axial, facing: Direction)

  datatype Move = Move(relativeDirection: RelativeDirection, steps: int)

  datatype MoveCard = MoveCard(id: string, name: string, move: Move, maxSteps: int)

  /** The unit vector of each absolute direction. */
  const DirectionVectors: seq<Axial> :=
    [Axial(1, 0), Axial(1, -1), Axial(0, -1), Axial(-1, 0), Axial(-1, 1), Axial(0, 1)]

  /** The engine's direction vectors are the board's neighbour offsets, in the same order. */
  lemma DirectionVectorsAreNeighborOffsets()
    ensures DirectionVectors == NeighborOffsets
  {
  }

  /** How many sixth-turns clockwise a relative direction lies from the facing. */
  function RelativeOffset(rel: RelativeDirection): (n: int)
    ensures 0 <= n < 6
  {
    match rel
    case F => 0
    case FR => 1
    case BR => 2
    case B => 3
    case BL => 4
    case FL => 5
  }

  /** JavaScript's `a % 6`: the remainder takes the sign of a. */
  function JsRem6(a: int): (m: int)
    ensures a >= 0 ==> m == a % 6
    ensures a < 0 ==> -6 < m <= 0 && (a - m) % 6 == 0
  {
    if a >= 0 then a % 6 else -((-a) % 6)
  }

  /** `resolveRelativeDirection`: `(facing + offset + 6) % 6`. */
  function ResolveRelativeDirection(facing: Direction, rel: RelativeDirection): (d: Direction)
    ensures d == (facing + RelativeOffset(rel)) % 6
    ensures rel == F ==> d == facing
    ensures rel == B ==> d == (facing + 3) % 6
  {
    JsRem6(facing + RelativeOffset(rel) + 6)
  }

  /** Mirror image of a relative direction across the front-back axis. */
  function Mirror(rel: RelativeDirection): RelativeDirection
  {
    match rel
    case F => F
    case FR => FL
    case BR => BL
    case B => B
    case BL => BR
    case FL => FR
  }

  /** Turning by a relative direction and then by its mirror image restores the facing. */
  lemma ResolveThenMirror(facing: Direction, rel: RelativeDirection)
    ensures ResolveRelativeDirection(ResolveRelativeDirection(facing, rel), Mirror(rel)) == facing
  {
  }

  /** From a fixed facing the six relative directions reach six different directions. */
  lemma ResolveInjective(facing: Direction, a: RelativeDirection, b: RelativeDirection)
    requires ResolveRelativeDirection(facing, a) == ResolveRelativeDirection(facing, b)
    ensures a == b
  {
  }

  /** The value `(facing + step + 6) % 6` the loop adds for each step from -maxSteps to maxSteps. */
  function FacingCandidates(facing: Direction, maxSteps: int): (c: seq<int>)
    ensures maxSteps < 0 ==> c == []
    ensures maxSteps >= 0 ==> |c| == 2 * maxSteps + 1
  {
    if maxSteps < 0 then []
    else seq(2 * maxSteps + 1, k requires 0 <= k < 2 * maxSteps + 1 => JsRem6(facing + (k - maxSteps) + 6))
  }

  /** `Array.from(set)` after adding the values one by one: each value once, in first-occurrence order. */
  function Dedup(s: seq<int>): (d: seq<int>)
    ensures NoDuplicates(d)
    ensures forall x :: x in d <==> x in s
    ensures |d| <= |s|
  {
    if s == [] then []
    else
      var init := Dedup(s[..|s| - 1]);
      assert forall x :: x in s <==> x in s[..|s| - 1] || x == s[|s| - 1] by {
        assert s == s[..|s| - 1] + [s[|s| - 1]];
      }
      if s[|s| - 1] in init then init else init + [s[|s| - 1]]
  }

  /** The kept values come in the order of their first occurrences, as a JavaScript `Set` iterates. */
  lemma {:induction false} DedupOrderAt(s: seq<int>, i: nat, j: nat)
    requires i < j < |Dedup(s)|
    ensures Dedup(s)[i] in s && Dedup(s)[j] in s
    ensures FirstIndex(s, Dedup(s)[i]) < FirstIndex(s, Dedup(s)[j])
  {
    var front, last := s[..|s| - 1], s[|s| - 1];
    var init := Dedup(front);
    assert s == front + [last];
    var d := Dedup(s);
    assert d == if last in init then init else init + [last];
    var x := init[i];
    assert x in init;
    FirstIndexPrefix(s, |s| - 1, x);
    if j < |init| {
      var y := init[j];
      assert y in init;
      FirstIndexPrefix(s, |s| - 1, y);
      DedupOrderAt(front, i, j);
    } else {
      assert last !in front;
      assert FirstIndex(s, last) == |s| - 1;
    }
  }

  /** The kept values come in the order of their first occurrences, as a JavaScript `Set` iterates. */
  lemma DedupOrder(s: seq<int>)
    ensures var d := Dedup(s);
      forall i, j :: 0 <= i < j < |d| ==> d[i] in s && d[j] in s && FirstIndex(s, d[i]) < FirstIndex(s, d[j])
  {
    forall i, j | 0 <= i < j < |Dedup(s)|
      ensures Dedup(s)[i] in s && Dedup(s)[j] in s && FirstIndex(s, Dedup(s)[i]) < FirstIndex(s, Dedup(s)[j])
    {
      DedupOrderAt(s, i, j);
    }
  }

  /** What `getFacingOptions` returns. */
  function FacingOptions(facing: Direction, maxSteps: int): seq<int>
  {
    Dedup(FacingCandidates(facing, maxSteps))
  }

  /** `getFacingOptions`: the loop over the steps, adding each candidate to an insertion-ordered set. */
  method GetFacingOptions(facing: Direction, maxSteps: int) returns (options: seq<int>)
    ensures options == FacingOptions(facing, maxSteps)
    ensures NoDuplicates(options)
  {
    options := [];
    var step := -maxSteps;
    ghost var added: seq<int> := [];
    while step <= maxSteps
      invariant maxSteps >= 0 ==> -maxSteps <= step <= maxSteps + 1
      invariant maxSteps < 0 ==> step == -maxSteps
      invariant maxSteps >= 0 ==> added == FacingCandidates(facing, maxSteps)[..step + maxSteps]
      invariant maxSteps < 0 ==> added == []
      invariant options == Dedup(added)
    {
      var value := JsRem6(facing + step + 6);
      assert FacingCandidates(facing, maxSteps)[..step + maxSteps + 1] == added + [value];
      assert (added + [value])[..|added|] == added;
      if value !in options {
        options := options + [value];
      }
      added := added + [value];
      step := step + 1;
    }
    if maxSteps >= 0 {
      assert added == FacingCandidates(facing, maxSteps);
    }
  }

  /** A non-negative rotation allowance always offers keeping the current facing. */
  lemma FacingOptionsIncludeFacing(facing: Direction, maxSteps: int)
    requires maxSteps >= 0
    ensures facing in FacingOptions(facing, maxSteps)
  {
    assert FacingCandidates(facing, maxSteps)[maxSteps] == JsRem6(facing + 6);
  }

  /** A negative rotation allowance offers nothing. */
  lemma FacingOptionsEmpty(facing: Direction, maxSteps: int)
    requires maxSteps < 0
    ensures FacingOptions(facing, maxSteps) == []
  {
  }

  lemma {:induction false} DedupOfDistinct(s: seq<int>)
    requires NoDuplicates(s)
    ensures Dedup(s) == s
  {
    if s != [] {
      var init := s[..|s| - 1];
      DedupOfDistinct(init);
      assert s[|s| - 1] !in init;
      assert init + [s[|s| - 1]] == s;
    }
  }

  /** For 0 <= maxSteps <= 6 every candidate is a direction: `facing + step + 6` is not negative. */
  lemma CandidateAt(facing: Direction, maxSteps: int, k: int)
    requires 0 <= maxSteps <= 6 && 0 <= k < 2 * maxSteps + 1
    ensures FacingCandidates(facing, maxSteps)[k] == (facing + k - maxSteps) % 6
  {
    var x := facing + k - maxSteps;
    assert FacingCandidates(facing, maxSteps)[k] == JsRem6(x + 6);
    assert (x + 6) % 6 == x % 6;
  }

  /** Up to two steps each way, the 2 * maxSteps + 1 candidates are all different. */
  lemma FacingOptionsCountSmall(facing: Direction, maxSteps: int)
    requires 0 <= maxSteps <= 2
    ensures FacingOptions(facing, maxSteps) == FacingCandidates(facing, maxSteps)
    ensures |FacingOptions(facing, maxSteps)| == 2 * maxSteps + 1
  {
    var c := FacingCandidates(facing, maxSteps);
    assert NoDuplicates(c) by {
      forall i, j | 0 <= i < j < |c|
        ensures c[i] != c[j]
      {
        CandidateAt(facing, maxSteps, i);
        CandidateAt(facing, maxSteps, j);
        ModDistinct(facing + i - maxSteps, facing + j - maxSteps);
      }
    }
    DedupOfDistinct(c);
  }

  /** From three steps each way up to six, every direction is offered exactly once. */
  lemma FacingOptionsCountLarge(facing: Direction, maxSteps: int)
    requires 3 <= maxSteps <= 6
    ensures forall d :: d in FacingOptions(facing, maxSteps) <==> 0 <= d < 6
    ensures |FacingOptions(facing, maxSteps)| == 6
  {
    var c := FacingCandidates(facing, maxSteps);
    var options := FacingOptions(facing, maxSteps);
    forall d | 0 <= d < 6
      ensures d in c
    {
      var k := (d - facing + maxSteps) % 6;
      CandidateAt(facing, maxSteps, k);
      ModAddBack(d - facing + maxSteps, d);
      assert c[k] == d;
    }
    forall x | x in c
      ensures 0 <= x < 6
    {
      var k :| 0 <= k < |c| && c[k] == x;
      CandidateAt(facing, maxSteps, k);
    }
    AllDirectionsCount(options);
  }

  /** A repeat-free sequence holding exactly the six directions has length 6. */
  lemma AllDirectionsCount(s: seq<int>)
    requires NoDuplicates(s)
    requires forall x :: x in s <==> 0 <= x < 6
    ensures |s| == 6
  {
    var values := Elements(s);
    forall x | x in values
      ensures x in {0, 1, 2, 3, 4, 5}
    {
      assert 0 <= x < 6;
    }
    forall x | x in {0, 1, 2, 3, 4, 5}
      ensures x in values
    {
      assert x in s;
    }
    assert values == {0, 1, 2, 3, 4, 5};
    assert |{0, 1, 2, 3, 4, 5}| == 6;
    ElementsCount(s);
  }

  /**
   * For 0 <= maxSteps <= 6 the options are directions and there are
   * min(2 * maxSteps + 1, 6) of them.
   */
  lemma FacingOptionsCount(facing: Direction, maxSteps: int)
    requires 0 <= maxSteps <= 6
    ensures forall d :: d in FacingOptions(facing, maxSteps) ==> 0 <= d < 6
    ensures |FacingOptions(facing, maxSteps)| == if 2 * maxSteps + 1 < 6 then 2 * maxSteps + 1 else 6
  {
    if maxSteps <= 2 {
      FacingOptionsCountSmall(facing, maxSteps);
      forall d | d in FacingOptions(facing, maxSteps)
        ensures 0 <= d < 6
      {
        var k :| 0 <= k < 2 * maxSteps + 1 && FacingCandidates(facing, maxSteps)[k] == d;
        CandidateAt(facing, maxSteps, k);
      }
    } else {
      FacingOptionsCountLarge(facing, maxSteps);
    }
  }

  lemma ModAddBack(t: int, d: int)
    requires 0 <= d < 6
    ensures (d - t + t % 6) % 6 == d
  {
    var q := t / 6;
    assert t == 6 * q + t % 6;
    assert d - t + t % 6 == d - 6 * q;
  }

  lemma ModDistinct(a: int, b: int)
    requires a < b < a + 6
    ensures a % 6 != b % 6
  {
  }

  /** Beyond six steps the truncating remainder yields a value that is not a direction. */
  lemma FacingOptionsNegativeBeyondSix()
    ensures -1 in FacingOptions(0, 7)
  {
    assert FacingCandidates(0, 7)[0] == -1;
  }

  /** `isWithinBoard`: hex distance from the centre at most the radius. */
  predicate IsWithinBoard(c: Axial, radius: int)
  {
    Abs(c.q) <= radius && Abs(c.r) <= radius && Abs(c.q + c.r) <= radius
  }

  function Abs(x: int): nat
  {
    if x < 0 then -x else x
  }

  /** Boards nest: the centre is on every board of radius >= 0, and a cell on a board is on every larger one. */
  lemma BoardsNest(c: Axial, radius: int, larger: int)
    requires radius <= larger
    ensures IsWithinBoard(Axial(0, 0), radius) <==> radius >= 0
    ensures IsWithinBoard(c, radius) ==> IsWithinBoard(c, larger)
  {
  }

  /** A straight run of n cells along one of the six directions ends exactly n cells away. */
  lemma StraightRunDistance(dir: Direction, n: int)
    ensures var v := DirectionVectors[dir];
      var off := Axial(v.q * n, v.r * n);
      IsWithinBoard(off, Abs(n)) && (n != 0 ==> !IsWithinBoard(off, Abs(n) - 1))
  {
    var v := DirectionVectors[dir];
    assert v.q * n == if v.q == 1 then n else if v.q == -1 then -n else 0;
    assert v.r * n == if v.r == 1 then n else if v.r == -1 then -n else 0;
  }

  /** `to` is reached from `from` by `n` steps along one of the six directions. */
  predicate StraightRun(from: Axial, to: Axial, n: int)
  {
    exists k :: 0 <= k < 6 && to == Axial(from.q + DirectionVectors[k].q * n, from.r + DirectionVectors[k].r * n)
  }

  /** `to` lies exactly `abs(n)` cells from `from`: within that distance, and not within one less. */
  predicate ExactlyAway(from: Axial, to: Axial, n: int)
  {
    var off := Axial(to.q - from.q, to.r - from.r);
    IsWithinBoard(off, Abs(n)) && (n != 0 ==> !IsWithinBoard(off, Abs(n) - 1))
  }

  /** The cell `steps` cells away from the piece along the card's direction, relative to the chosen facing. */
  function Destination(piece: EnginePiece, card: MoveCard, chosenFacing: Direction): Axial
  {
    var delta := DirectionVectors[ResolveRelativeDirection(chosenFacing, card.move.relativeDirection)];
    Axial(piece.position.q + delta.q * card.move.steps, piece.position.r + delta.r * card.move.steps)
  }

  /** `getLegalActions`: the facing options, and the one destination when a facing was chosen and it is on the board. */
  method GetLegalActions(piece: EnginePiece, card: MoveCard, boardRadius: int, chosenFacing: Option<Direction>)
    returns (facingOptions: seq<int>, moveDestinations: seq<Axial>)
    ensures facingOptions == FacingOptions(piece.facing, card.maxSteps)
    ensures chosenFacing.None? ==> moveDestinations == []
    ensures chosenFacing.Some? ==>
      (moveDestinations != [] <==> IsWithinBoard(Destination(piece, card, chosenFacing.value), boardRadius))
    ensures |moveDestinations| <= 1
    ensures forall d :: d in moveDestinations ==>
      chosenFacing.Some? && d == Destination(piece, card, chosenFacing.value) && IsWithinBoard(d, boardRadius)
    ensures forall d :: d in moveDestinations ==>
      chosenFacing.Some? && MoveLands(piece, card, boardRadius, ApplyMove(piece, d, chosenFacing.value))
  {
    facingOptions := GetFacingOptions(piece.facing, card.maxSteps);
    moveDestinations := [];
    if chosenFacing.Some? {
      var absoluteDirection := ResolveRelativeDirection(chosenFacing.value, card.move.relativeDirection);
      var delta := DirectionVectors[absoluteDirection];
      var destination := Axial(piece.position.q + delta.q * card.move.steps, piece.position.r + delta.r * card.move.steps);
      if IsWithinBoard(destination, boardRadius) {
        LegalMoveStaysOnBoard(piece, card, boardRadius, chosenFacing.value);
        moveDestinations := moveDestinations + [destination];
      }
    }
  }

  /** The destination lies exactly `|steps|` cells from the piece, straight along one of the six directions. */
  lemma DestinationDistance(piece: EnginePiece, card: MoveCard, chosenFacing: Direction)
    ensures StraightRun(piece.position, Destination(piece, card, chosenFacing), card.move.steps)
    ensures ExactlyAway(piece.position, Destination(piece, card, chosenFacing), card.move.steps)
  {
    var dir := ResolveRelativeDirection(chosenFacing, card.move.relativeDirection);
    StraightRunDistance(dir, card.move.steps);
    var d := Destination(piece, card, chosenFacing);
    assert d == Axial(piece.position.q + DirectionVectors[dir].q * card.move.steps,
                      piece.position.r + DirectionVectors[dir].r * card.move.steps);
  }

  /** The moved piece keeps its id, is on the board, and went straight exactly `|steps|` cells. */
  predicate MoveLands(piece: EnginePiece, card: MoveCard, boardRadius: int, moved: EnginePiece)
  {
    && moved.id == piece.id
    && IsWithinBoard(moved.position, boardRadius)
    && StraightRun(piece.position, moved.position, card.move.steps)
    && ExactlyAway(piece.position, moved.position, card.move.steps)
  }

  /** `applyMove`: the piece at its new cell with its new facing; its id is kept. */
  function ApplyMove(piece: EnginePiece, destination: Axial, facing: Direction): (p: EnginePiece)
    ensures p.id == piece.id && p.position == destination && p.facing == facing
  {
    piece.(position := destination, facing := facing)
  }

  /**
   * Applying a legal destination leaves the piece on the board with its id,
   * exactly `|steps|` cells straight from where it stood.
   */
  lemma LegalMoveStaysOnBoard(piece: EnginePiece, card: MoveCard, boardRadius: int, chosen: Direction)
    requires IsWithinBoard(Destination(piece, card, chosen), boardRadius)
    ensures MoveLands(piece, card, boardRadius, ApplyMove(piece, Destination(piece, card, chosen), chosen))
  {
    DestinationDistance(piece, card, chosen);
  }
}
