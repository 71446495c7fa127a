/**
 * Frame normalisation: a stable sort of a copy of the frames by their
 * `index`, followed (in development builds) by a pass that warns once for
 * every frame whose index was already seen.  Duplicates are kept.
 */
module NormalizeFrames {
  import opened JsonValue

  /** A frame as the card types declare it: its position number and its symbols. */
  datatype IndexedFrame = IndexedFrame(index: int, symbols: seq<Json>)

  predicate Sorted(s: seq<IndexedFrame>)
  {
    forall i, j :: 0 <= i < j < |s| ==> s[i].index <= s[j].index
  }

  /** The frames carrying index v, in their order of appearance. */
  function WithIndex(s: seq<IndexedFrame>, v: int): seq<IndexedFrame>
  {
    if s == [] then []
    else WithIndex(s[..|s| - 1], v) + (if s[|s| - 1].index == v then [s[|s| - 1]] else [])
  }

  lemma WithIndexSnoc(s: seq<IndexedFrame>, y: IndexedFrame, v: int)
    ensures WithIndex(s + [y], v) == WithIndex(s, v) + (if y.index == v then [y] else [])
  {
    assert (s + [y])[..|s|] == s;
  }

  /**
   * Places x after every frame whose index is not larger than its own, the
   * position a stable sort gives an element that came later in the input.
   */
  function Insert(sorted: seq<IndexedFrame>, x: IndexedFrame): (r: seq<IndexedFrame>)
    ensures multiset(r) == multiset(sorted) + multiset{x}
    ensures forall y :: y in r <==> y in sorted || y == x
  {
    if sorted == [] then [x]
    else
      var last := sorted[|sorted| - 1];
      var init := sorted[..|sorted| - 1];
      assert init + [last] == sorted;
      if last.index <= x.index then sorted + [x]
      else Insert(init, x) + [last]
  }

  lemma {:induction false} InsertSorted(sorted: seq<IndexedFrame>, x: IndexedFrame)
    requires Sorted(sorted)
    ensures Sorted(Insert(sorted, x))
  {
    if sorted != [] {
      var last := sorted[|sorted| - 1];
      var init := sorted[..|sorted| - 1];
      if last.index > x.index {
        InsertSorted(init, x);
        var front := Insert(init, x);
        assert forall y :: y in front ==> y.index <= last.index;
        assert forall i :: 0 <= i < |front| ==> front[i] in front;
      }
    }
  }

  /** `[...frames].sort((a, b) => a.index - b.index)`: the stable sort by index. */
  function SortByIndex(frames: seq<IndexedFrame>): (r: seq<IndexedFrame>)
    ensures multiset(r) == multiset(frames)
    ensures |r| == |frames|
    ensures Sorted(r)
  {
    if frames == [] then []
    else
      var init := frames[..|frames| - 1];
      assert init + [frames[|frames| - 1]] == frames;
      InsertSorted(SortByIndex(init), frames[|frames| - 1]);
      var r := Insert(SortByIndex(init), frames[|frames| - 1]);
      assert |r| == |multiset(r)|;
      r
  }

  /** `normalizeFrames`: the sorted copy; the input sequence is a value and stays as it was. */
  function NormalizeFrames(frames: seq<IndexedFrame>): (r: seq<IndexedFrame>)
    ensures multiset(r) == multiset(frames)
    ensures |r| == |frames|
    ensures Sorted(r)
  {
    SortByIndex(frames)
  }

  lemma {:induction false} InsertKeepsOrderPerIndex(sorted: seq<IndexedFrame>, x: IndexedFrame, v: int)
    ensures WithIndex(Insert(sorted, x), v) == WithIndex(sorted, v) + (if x.index == v then [x] else [])
  {
    if sorted == [] {
      WithIndexSnoc([], x, v);
    } else {
      var last := sorted[|sorted| - 1];
      var init := sorted[..|sorted| - 1];
      assert init + [last] == sorted;
      if last.index <= x.index {
        WithIndexSnoc(sorted, x, v);
      } else {
        InsertKeepsOrderPerIndex(init, x, v);
        WithIndexSnoc(Insert(init, x), last, v);
        WithIndexSnoc(init, last, v);
      }
    }
  }

  /** Stability: frames sharing an index keep their input order. */
  lemma {:induction false} NormalizeFramesIsStable(frames: seq<IndexedFrame>, v: int)
    ensures WithIndex(NormalizeFrames(frames), v) == WithIndex(frames, v)
  {
    if frames != [] {
      var init := frames[..|frames| - 1];
      NormalizeFramesIsStable(init, v);
      InsertKeepsOrderPerIndex(SortByIndex(init), frames[|frames| - 1], v);
    }
  }

  /** Frames already in index order come back unchanged. */
  lemma {:induction false} SortedIsFixed(frames: seq<IndexedFrame>)
    requires Sorted(frames)
    ensures NormalizeFrames(frames) == frames
  {
    if frames != [] {
      var init := frames[..|frames| - 1];
      SortedIsFixed(init);
      assert init + [frames[|frames| - 1]] == frames;
    }
  }

  /** Normalising twice is normalising once. */
  lemma NormalizeFramesIdempotent(frames: seq<IndexedFrame>)
    ensures NormalizeFrames(NormalizeFrames(frames)) == NormalizeFrames(frames)
  {
    SortedIsFixed(NormalizeFrames(frames));
  }

  /** The indices present in a prefix. */
  function IndexSet(s: seq<IndexedFrame>): set<int>
  {
    set k | 0 <= k < |s| :: s[k].index
  }

  /** The index of every frame whose index appeared earlier, in order: the warnings the check prints. */
  function DuplicateIndices(s: seq<IndexedFrame>): seq<int>
  {
    if s == [] then []
    else
      var init := s[..|s| - 1];
      DuplicateIndices(init) + (if s[|s| - 1].index in IndexSet(init) then [s[|s| - 1].index] else [])
  }

  lemma IndexSetSnoc(s: seq<IndexedFrame>, x: IndexedFrame)
    ensures IndexSet(s + [x]) == IndexSet(s) + {x.index}
  {
    assert forall k :: 0 <= k < |s| ==> (s + [x])[k] == s[k];
    assert (s + [x])[|s|] == x;
  }

  /** Every frame either adds a new index or is reported once as a duplicate. */
  lemma {:induction false} DuplicateCount(s: seq<IndexedFrame>)
    ensures |DuplicateIndices(s)| + |IndexSet(s)| == |s|
  {
    if s != [] {
      var init := s[..|s| - 1];
      var x := s[|s| - 1];
      DuplicateCount(init);
      assert init + [x] == s;
      IndexSetSnoc(init, x);
      if x.index !in IndexSet(init) {
        assert |IndexSet(init) + {x.index}| == |IndexSet(init)| + 1;
      } else {
        assert IndexSet(init) + {x.index} == IndexSet(init);
      }
    }
  }

  /** The development-build pass over the ordered frames: a `seen` set and one warning per repeat. */
  method DuplicateWarnings(ordered: seq<IndexedFrame>) returns (warned: seq<int>)
    ensures warned == DuplicateIndices(ordered)
    ensures |warned| + |IndexSet(ordered)| == |ordered|
  {
    var seen: set<int> := {};
    warned := [];
    var i := 0;
    while i < |ordered|
      invariant 0 <= i <= |ordered|
      invariant seen == IndexSet(ordered[..i])
      invariant warned == DuplicateIndices(ordered[..i])
    {
      var frame := ordered[i];
      assert ordered[..i + 1] == ordered[..i] + [frame];
      assert ordered[..i + 1][..i] == ordered[..i];
      IndexSetSnoc(ordered[..i], frame);
      if frame.index in seen {
        warned := warned + [frame.index];
      }
      seen := seen + {frame.index};
      i := i + 1;
    }
    assert ordered[..i] == ordered;
    DuplicateCount(ordered);
  }
}
