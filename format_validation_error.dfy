/**
 * The standalone error formatter: one `[cardId] path expected X, got Y` line
 * per validation error, joined by '\n'.
 */
module ValidationErrorFormat {
  import Schema
  import TextLines

  /** `formatValidationError`: the four fields framed by fixed punctuation (19 characters of it). */
  function FormatValidationError(e: Schema.ValidationError): (s: string)
    ensures |s| == |e.cardId| + |e.path| + |e.expected| + |e.received| + 19
    ensures s[..|e.cardId| + 3] == "[" + e.cardId + "] "
    ensures s[|s| - |e.received| - 6..] == ", got " + e.received
    ensures TextLines.NoNewline(s) <==>
      && TextLines.NoNewline(e.cardId) && TextLines.NoNewline(e.path)
      && TextLines.NoNewline(e.expected) && TextLines.NoNewline(e.received)
  {
    var s := "[" + e.cardId + "] " + e.path + " expected " + e.expected + ", got " + e.received;
    assert s[..|e.cardId| + 3] == "[" + e.cardId + "] ";
    assert s[|s| - |e.received| - 6..] == ", got " + e.received;
    var p1 := "[" + e.cardId;
    var p2 := p1 + "] ";
    var p3 := p2 + e.path;
    var p4 := p3 + " expected ";
    var p5 := p4 + e.expected;
    var p6 := p5 + ", got ";
    TextLines.NoNewlineAppend("[", e.cardId);
    TextLines.NoNewlineAppend(p1, "] ");
    TextLines.NoNewlineAppend(p2, e.path);
    TextLines.NoNewlineAppend(p3, " expected ");
    TextLines.NoNewlineAppend(p4, e.expected);
    TextLines.NoNewlineAppend(p5, ", got ");
    TextLines.NoNewlineAppend(p6, e.received);
    s
  }

  /** The formatted lines, in error order. */
  function FormatLines(errors: seq<Schema.ValidationError>): seq<string>
  {
    seq(|errors|, k requires 0 <= k < |errors| => FormatValidationError(errors[k]))
  }

  /** `formatValidationErrors`: the lines joined by '\n'. */
  function FormatValidationErrors(errors: seq<Schema.ValidationError>): (s: string)
    ensures errors == [] <==> s == ""
  {
    var lines := FormatLines(errors);
    assert errors != [] ==> |TextLines.JoinLines(lines)| >= 19 by {
      if errors != [] {
        TextLines.JoinLinesLength(lines);
        SumLengthsAtLeastFirst(lines);
      }
    }
    TextLines.JoinLines(lines)
  }

  lemma SumLengthsAtLeastFirst(parts: seq<string>)
    requires parts != []
    ensures TextLines.SumLengths(parts) >= |parts[0]|
  {
  }

  /** A message of errors whose fields hold no line break splits back into one line per error. */
  lemma FormatValidationErrorsLines(errors: seq<Schema.ValidationError>)
    requires errors != []
    requires forall k :: 0 <= k < |errors| ==>
      && TextLines.NoNewline(errors[k].cardId) && TextLines.NoNewline(errors[k].path)
      && TextLines.NoNewline(errors[k].expected) && TextLines.NoNewline(errors[k].received)
    ensures TextLines.SplitLines(FormatValidationErrors(errors)) == FormatLines(errors)
  {
    TextLines.SplitJoinLines(FormatLines(errors));
  }

  /** The standalone formatter and the schema's own produce the same text. */
  lemma FormattersAgree(errors: seq<Schema.ValidationError>)
    ensures FormatValidationErrors(errors) == Schema.FormatValidationErrors(errors)
  {
    assert FormatLines(errors) == seq(|errors|, k requires 0 <= k < |errors| =>
      "[" + errors[k].cardId + "] " + errors[k].path + " expected " + errors[k].expected + ", got " + errors[k].received);
  }
}
