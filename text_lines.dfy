/**
 * `Array.prototype.join('\n')` over strings, and its inverse for lines that
 * hold no line break (`String.prototype.split('\n')`).
 */
module TextLines {

  predicate NoNewline(s: string)
  {
    forall k :: 0 <= k < |s| ==> s[k] != '\n'
  }

  lemma NoNewlineAppend(a: string, b: string)
    ensures NoNewline(a + b) <==> NoNewline(a) && NoNewline(b)
  {
    var ab := a + b;
    if NoNewline(ab) {
      forall k | 0 <= k < |a| ensures a[k] != '\n' {
        assert ab[k] == a[k];
      }
      forall k | 0 <= k < |b| ensures b[k] != '\n' {
        assert ab[|a| + k] == b[k];
      }
    }
    if NoNewline(a) && NoNewline(b) {
      forall k | 0 <= k < |ab| ensures ab[k] != '\n' {
        if k < |a| {
          assert ab[k] == a[k];
        } else {
          assert ab[k] == b[k - |a|];
        }
      }
    }
  }

  /** `parts.join('\n')`: the parts in order with one '\n' between neighbours. */
  function JoinLines(parts: seq<string>): string
  {
    if |parts| == 0 then ""
    else if |parts| == 1 then parts[0]
    else parts[0] + "\n" + JoinLines(parts[1..])
  }

  /** `s.split('\n')`: always at least one (possibly empty) line. */
  function SplitLines(s: string): (lines: seq<string>)
    ensures |lines| >= 1
  {
    if s == [] then [""]
    else
      var rest := SplitLines(s[1..]);
      if s[0] == '\n' then [""] + rest else [[s[0]] + rest[0]] + rest[1..]
  }

  lemma {:induction false} SplitLineWithoutBreak(a: string)
    requires NoNewline(a)
    ensures SplitLines(a) == [a]
  {
    if a != [] {
      SplitLineWithoutBreak(a[1..]);
      assert [a[0]] + a[1..] == a;
    }
  }

  lemma {:induction false} SplitFirstLine(a: string, b: string)
    requires NoNewline(a)
    ensures SplitLines(a + "\n" + b) == [a] + SplitLines(b)
  {
    if a == [] {
      assert a + "\n" + b == "\n" + b;
      assert ("\n" + b)[1..] == b;
    } else {
      assert (a + "\n" + b)[1..] == a[1..] + "\n" + b;
      SplitFirstLine(a[1..], b);
      assert [a[0]] + a[1..] == a;
    }
  }

  /** Joining lines and splitting the result gives the lines back. */
  lemma {:induction false} SplitJoinLines(parts: seq<string>)
    requires |parts| >= 1
    requires forall i :: 0 <= i < |parts| ==> NoNewline(parts[i])
    ensures SplitLines(JoinLines(parts)) == parts
  {
    if |parts| == 1 {
      SplitLineWithoutBreak(parts[0]);
    } else {
      SplitFirstLine(parts[0], JoinLines(parts[1..]));
      SplitJoinLines(parts[1..]);
    }
  }

  /** The joined text is the parts plus one separator per neighbouring pair. */
  lemma {:induction false} JoinLinesLength(parts: seq<string>)
    requires |parts| >= 1
    ensures |JoinLines(parts)| == SumLengths(parts) + |parts| - 1
  {
    if |parts| > 1 {
      JoinLinesLength(parts[1..]);
    }
  }

  function SumLengths(parts: seq<string>): nat
  {
    if parts == [] then 0 else |parts[0]| + SumLengths(parts[1..])
  }
}
