/** Facts about sequences used as insertion-ordered sets. */
module SeqUtil {

  predicate NoDuplicates<T(==)>(s: seq<T>)
  {
    forall i, j :: 0 <= i < j < |s| ==> s[i] != s[j]
  }

  function Elements<T>(s: seq<T>): set<T>
  {
    set x | x in s
  }

  /** A sequence has at most as many distinct values as positions, and exactly as many without repeats. */
  lemma {:induction false} ElementsCount<T>(s: seq<T>)
    ensures |Elements(s)| <= |s|
    ensures NoDuplicates(s) ==> |Elements(s)| == |s|
  {
    if s != [] {
      var init := s[..|s| - 1];
      ElementsCount(init);
      assert s == init + [s[|s| - 1]];
      assert Elements(s) == Elements(init) + {s[|s| - 1]};
      if NoDuplicates(s) {
        assert NoDuplicates(init);
        assert s[|s| - 1] !in init;
      }
    }
  }

  /** The position of the first occurrence of x. */
  function FirstIndex<T(==)>(s: seq<T>, x: T): (i: nat)
    requires x in s
    ensures i < |s| && s[i] == x
    ensures forall k :: 0 <= k < i ==> s[k] != x
  {
    if s[0] == x then 0
    else
      var i := 1 + FirstIndex(s[1..], x);
      assert forall k :: 1 <= k < i ==> s[k] == s[1..][k - 1];
      i
  }

  /** A value already present in a prefix has its first occurrence there. */
  lemma FirstIndexPrefix<T>(s: seq<T>, n: nat, x: T)
    requires n <= |s| && x in s[..n]
    ensures FirstIndex(s, x) == FirstIndex(s[..n], x)
  {
    var i, j := FirstIndex(s, x), FirstIndex(s[..n], x);
    assert s[j] == x;
    assert i <= j;
    assert s[..n][i] == x;
  }
}
