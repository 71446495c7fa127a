/**
 * The move preview: with a cell and a frame selected, the six neighbouring
 * cells are highlighted; otherwise nothing is.
 */
module PreviewEngine {
  import opened Wrappers
  import opened Hex
  import opened SeqUtil

  /** `arrows` is optional and this engine never fills it. */
  datatype Arrow = Arrow(from: Axial, to: Axial)

  /** `highlighted` is an insertion-ordered set of cell keys. */
  datatype Preview = Preview(highlighted: seq<string>, arrows: Option<seq<Arrow>>)

  /** The keys of the six neighbours of a cell, in offset order. */
  function NeighborKeys(hex: Axial): seq<string>
  {
    seq(6, k requires 0 <= k < 6 => AxialKey(Add(hex, NeighborOffsets[k])))
  }

  /** The six neighbour keys are different from each other and from the cell's own key. */
  lemma NeighborKeysDistinct(hex: Axial)
    ensures NoDuplicates(NeighborKeys(hex))
    ensures AxialKey(hex) !in NeighborKeys(hex)
  {
    var keys := NeighborKeys(hex);
    NeighborOffsetsDistinct();
    forall i, j | 0 <= i < j < 6
      ensures keys[i] != keys[j]
    {
      if keys[i] == keys[j] {
        AxialKeyInjective(Add(hex, NeighborOffsets[i]), Add(hex, NeighborOffsets[j]));
        assert false;
      }
    }
    forall k | 0 <= k < 6
      ensures keys[k] != AxialKey(hex)
    {
      if keys[k] == AxialKey(hex) {
        AxialKeyInjective(Add(hex, NeighborOffsets[k]), hex);
        assert false;
      }
    }
  }

  /** No neighbour key occurs before its own position, so the preview's `add` never finds it already present. */
  lemma NeighborKeyIsNew(hex: Axial, i: nat)
    requires i < 6
    ensures NeighborKeys(hex)[i] !in NeighborKeys(hex)[..i]
  {
    NeighborKeysDistinct(hex);
  }

  /** `getPreview`: early returns for a missing cell or frame, otherwise one `add` per offset. */
  method GetPreview(selectedHex: Option<Axial>, selectedFrameIndex: Option<int>) returns (p: Preview)
    ensures p.arrows.None?
    ensures selectedHex.None? || selectedFrameIndex.None? ==> p.highlighted == []
    ensures selectedHex.Some? && selectedFrameIndex.Some? ==> p.highlighted == NeighborKeys(selectedHex.value)
  {
    if selectedHex.None? {
      return Preview([], None);
    }
    if selectedFrameIndex.None? {
      return Preview([], None);
    }
    var hex := selectedHex.value;
    var highlighted: seq<string> := [];
    var i := 0;
    while i < |NeighborOffsets|
      invariant 0 <= i <= 6
      invariant highlighted == NeighborKeys(hex)[..i]
    {
      var offset := NeighborOffsets[i];
      var key := AxialKey(Axial(hex.q + offset.q, hex.r + offset.r));
      assert key == NeighborKeys(hex)[i];
      NeighborKeyIsNew(hex, i);
      if key !in highlighted {
        highlighted := highlighted + [key];
      }
      assert NeighborKeys(hex)[..i + 1] == NeighborKeys(hex)[..i] + [key];
      i := i + 1;
    }
    return Preview(highlighted, None);
  }
}
