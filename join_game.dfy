/**
 * The join page's invite-link parser and the guard of its submit handler.
 * Storing the name and navigating are returned as an outcome value.
 */
module JoinGame {
  /** The characters JavaScript's `String.prototype.trim` removes (white space and line terminators). */
  predicate IsJsWhitespace(c: char)
  {
    || c == '\t' || c == '\n' || c == '\U{B}' || c == '\U{C}' || c == '\r' || c == ' '
    || c == '\U{A0}' || c == '\U{1680}' || ('\U{2000}' <= c <= '\U{200A}')
    || c == '\U{2028}' || c == '\U{2029}' || c == '\U{202F}' || c == '\U{205F}'
    || c == '\U{3000}' || c == '\U{FEFF}'
  }

  predicate AllWhitespace(s: string)
  {
    forall k :: 0 <= k < |s| ==> IsJsWhitespace(s[k])
  }

  function TrimStart(s: string): (t: string)
    ensures |t| <= |s| && t == s[|s| - |t|..]
    ensures t != [] ==> !IsJsWhitespace(t[0])
    ensures t == [] <==> AllWhitespace(s)
    ensures AllWhitespace(s[..|s| - |t|])
  {
    if s != [] && IsJsWhitespace(s[0]) then
      var rest := TrimStart(s[1..]);
      SuffixOfTail(s, rest);
      BlankPrefixOfTail(s, |s| - 1 - |rest|);
      rest
    else s
  }

  /** A suffix of `s[1..]` is a suffix of s. */
  lemma SuffixOfTail(s: string, rest: string)
    requires s != [] && |rest| <= |s| - 1 && rest == s[1..][|s| - 1 - |rest|..]
    ensures rest == s[|s| - |rest|..]
  {
    assert s[1..][|s| - 1 - |rest|..] == s[|s| - |rest|..];
  }

  /** A blank first character followed by a blank prefix of the tail is a longer blank prefix. */
  lemma BlankPrefixOfTail(s: string, n: nat)
    requires s != [] && IsJsWhitespace(s[0]) && n <= |s| - 1 && AllWhitespace(s[1..][..n])
    ensures AllWhitespace(s[..n + 1])
  {
    var blank := s[..n + 1];
    forall k | 0 <= k < |blank|
      ensures IsJsWhitespace(blank[k])
    {
      if k > 0 {
        assert blank[k] == s[1..][..n][k - 1];
      }
    }
  }

  function TrimEnd(s: string): (t: string)
    ensures |t| <= |s| && t == s[..|t|]
    ensures t != [] ==> !IsJsWhitespace(t[|t| - 1])
    ensures t == [] <==> AllWhitespace(s)
    ensures AllWhitespace(s[|t|..])
  {
    if s != [] && IsJsWhitespace(s[|s| - 1]) then
      var rest := TrimEnd(s[..|s| - 1]);
      PrefixOfFront(s, rest);
      BlankSuffixOfFront(s, |rest|);
      rest
    else s
  }

  /** A prefix of `s[..|s| - 1]` is a prefix of s. */
  lemma PrefixOfFront(s: string, rest: string)
    requires s != [] && |rest| <= |s| - 1 && rest == s[..|s| - 1][..|rest|]
    ensures rest == s[..|rest|]
  {
    assert s[..|s| - 1][..|rest|] == s[..|rest|];
  }

  /** A blank suffix of the front followed by a blank last character is a longer blank suffix. */
  lemma BlankSuffixOfFront(s: string, n: nat)
    requires s != [] && IsJsWhitespace(s[|s| - 1]) && n <= |s| - 1 && AllWhitespace(s[..|s| - 1][n..])
    ensures AllWhitespace(s[n..])
  {
    var blank := s[n..];
    forall k | 0 <= k < |blank|
      ensures IsJsWhitespace(blank[k])
    {
      if k < |blank| - 1 {
        assert blank[k] == s[..|s| - 1][n..][k];
      }
    }
  }

  /** `value.trim()`. */
  function Trim(s: string): (t: string)
    ensures t == [] <==> AllWhitespace(s)
    ensures t != [] ==> !IsJsWhitespace(t[0]) && !IsJsWhitespace(t[|t| - 1])
    ensures exists i :: 0 <= i <= i + |t| <= |s| && t == s[i..i + |t|] && AllWhitespace(s[..i]) && AllWhitespace(s[i + |t|..])
  {
    var front := TrimStart(s);
    assert AllWhitespace(s) ==> front == [];
    TrimEnd(front)
  }

  /** `s.split(c)[0]`: everything before the first c (all of s when there is none). */
  function BeforeFirst(s: string, c: char): (r: string)
    ensures |r| <= |s| && r == s[..|r|]
    ensures c !in r
    ensures |r| < |s| ==> s[|r|] == c
  {
    if s == [] || s[0] == c then []
    else
      var rest := BeforeFirst(s[1..], c);
      assert [s[0]] + s[1..][..|rest|] == s[..|rest| + 1];
      [s[0]] + rest
  }

  /** The last element of `s.split(c)`: everything after the last c (all of s when there is none). */
  function AfterLast(s: string, c: char): (r: string)
    ensures |r| <= |s| && r == s[|s| - |r|..]
    ensures c !in r
    ensures |r| < |s| ==> s[|s| - |r| - 1] == c
  {
    if s == [] || s[|s| - 1] == c then []
    else
      var front := AfterLast(s[..|s| - 1], c);
      assert s[..|s| - 1][|s| - 1 - |front|..] + [s[|s| - 1]] == s[|s| - |front| - 1..];
      front + [s[|s| - 1]]
  }

  /** The part of `extractGameId` after trimming: drop the query, keep the last path segment. */
  function LastPathSegment(trimmed: string): (id: string)
    ensures '/' !in id && '?' !in id
    ensures var path := BeforeFirst(trimmed, '?');
      && |id| <= |path| && id == path[|path| - |id|..]
      && (|id| < |path| ==> path[|path| - |id| - 1] == '/')
  {
    var withoutQuery := BeforeFirst(trimmed, '?');
    if '/' in withoutQuery then AfterLast(withoutQuery, '/')
    else withoutQuery
  }

  /** `extractGameId`: trim, drop the query, keep the last path segment. */
  function ExtractGameId(value: string): (id: string)
    ensures '/' !in id && '?' !in id
  {
    var trimmed := Trim(value);
    if trimmed == [] then "" else LastPathSegment(trimmed)
  }

  /** Empty or blank input names no game. */
  lemma BlankGivesEmpty(value: string)
    requires AllWhitespace(value)
    ensures ExtractGameId(value) == ""
  {
  }

  lemma {:induction false} TrimStartAppend(a: string, b: string)
    requires b != [] && !IsJsWhitespace(b[0])
    ensures TrimStart(a + b) == TrimStart(a) + b
  {
    if a != [] && IsJsWhitespace(a[0]) {
      assert (a + b)[1..] == a[1..] + b;
      TrimStartAppend(a[1..], b);
    } else if a == [] {
      assert a + b == b;
    }
  }

  lemma TrimEndKeeps(s: string)
    requires s != [] && !IsJsWhitespace(s[|s| - 1])
    ensures TrimEnd(s) == s
  {
  }

  lemma {:induction false} AfterLastSegment(prefix: string, id: string, c: char)
    requires c !in id
    ensures AfterLast(prefix + [c] + id, c) == id
  {
    if id != [] {
      var s := prefix + [c] + id;
      assert s[..|s| - 1] == prefix + [c] + id[..|id| - 1];
      AfterLastSegment(prefix, id[..|id| - 1], c);
      assert id[..|id| - 1] + [id[|id| - 1]] == id;
    }
  }

  lemma {:induction false} BeforeFirstAbsent(s: string, c: char)
    requires c !in s
    ensures BeforeFirst(s, c) == s
  {
    if s != [] {
      assert c !in s[1..];
      BeforeFirstAbsent(s[1..], c);
    }
  }

  /** The path the server puts between the client URL and the game id. */
  const LobbyPrefix := "/lobby/"

  lemma LobbyPrefixShape()
    ensures LobbyPrefix == "/lobby" + ['/']
    ensures LobbyPrefix[0] == '/' && '?' !in LobbyPrefix
  {
  }

  /** Trimming a text that ends in a non-blank tail starting with a non-blank drops only leading blanks of the head. */
  lemma TrimBeforeTail(head: string, tail: string)
    requires tail != [] && !IsJsWhitespace(tail[0]) && !IsJsWhitespace(tail[|tail| - 1])
    ensures Trim(head + tail) == TrimStart(head) + tail
  {
    TrimStartAppend(head, tail);
    var front := TrimStart(head) + tail;
    assert front[|front| - 1] == tail[|tail| - 1];
    TrimEndKeeps(front);
  }

  lemma SegmentAfterSlash(head: string, gameId: string)
    requires '/' !in gameId && '?' !in gameId && '?' !in head
    ensures LastPathSegment(head + ['/'] + gameId) == gameId
  {
    var front := head + ['/'] + gameId;
    assert '?' !in front;
    BeforeFirstAbsent(front, '?');
    assert front[|head|] == '/';
    AfterLastSegment(head, gameId, '/');
  }

  lemma ConcatAssociative(a: string, b: string, c: string)
    ensures a + (b + c) == a + b + c
  {
  }

  /** A link whose last '/' is followed by a plain id yields that id. */
  lemma LastSegmentExtracted(url: string, gameId: string)
    requires gameId != []
    requires '/' !in gameId && '?' !in gameId
    requires !IsJsWhitespace(gameId[|gameId| - 1])
    requires '?' !in url
    ensures ExtractGameId(url + ['/'] + gameId) == gameId
  {
    var value := url + ['/'] + gameId;
    var tail := ['/'] + gameId;
    ConcatAssociative(url, ['/'], gameId);
    TrimBeforeTail(url, tail);
    var head := TrimStart(url);
    assert '?' !in head by {
      assert head == url[|url| - |head|..];
    }
    var trimmed := head + ['/'] + gameId;
    ConcatAssociative(head, ['/'], gameId);
    assert Trim(value) == trimmed;
    SegmentAfterSlash(head, gameId);
    assert LastPathSegment(trimmed) == gameId;
  }

  /**
   * The server's invite link `clientUrl + "/lobby/" + gameId` parses back to
   * the game id, for a non-empty id with no '/' or '?' that does not end in
   * white space, and a client URL with no '?'.
   */
  lemma InviteLinkRoundTrip(clientUrl: string, gameId: string)
    requires gameId != []
    requires '/' !in gameId && '?' !in gameId
    requires !IsJsWhitespace(gameId[|gameId| - 1])
    requires '?' !in clientUrl
    ensures ExtractGameId(clientUrl + LobbyPrefix + gameId) == gameId
  {
    LobbyPrefixShape();
    var url := clientUrl + "/lobby";
    assert '?' !in url;
    assert clientUrl + LobbyPrefix + gameId == url + ['/'] + gameId;
    LastSegmentExtracted(url, gameId);
  }

  lemma {:induction false} TrimEndAppend(a: string, b: string)
    requires a != [] && !IsJsWhitespace(a[|a| - 1])
    ensures TrimEnd(a + b) == a + TrimEnd(b)
  {
    if b != [] && IsJsWhitespace(b[|b| - 1]) {
      assert (a + b)[..|a + b| - 1] == a + b[..|b| - 1];
      TrimEndAppend(a, b[..|b| - 1]);
    } else if b == [] {
      assert a + b == a;
      TrimEndKeeps(a);
    }
  }

  lemma {:induction false} BeforeFirstAfter(a: string, c: char, b: string)
    requires c !in a
    ensures BeforeFirst(a + [c] + b, c) == a
  {
    if a != [] {
      assert (a + [c] + b)[1..] == a[1..] + [c] + b;
      BeforeFirstAfter(a[1..], c, b);
    }
  }

  /** A query after the last path segment is cut off before the segment is taken. */
  lemma SegmentBeforeQuery(head: string, gameId: string, query: string)
    requires '?' !in head && '/' !in gameId && '?' !in gameId
    ensures LastPathSegment(head + ['/'] + gameId + ['?'] + query) == gameId
  {
    var path := head + ['/'] + gameId;
    assert '?' !in path;
    BeforeFirstAfter(path, '?', query);
    assert path[|head|] == '/';
    AfterLastSegment(head, gameId, '/');
  }

  /** The ways an invite link with a query is grouped below. */
  lemma LinkWithQueryShape(h: string, gameId: string, query: string)
    ensures h + LobbyPrefix + gameId + "?" + query == h + (LobbyPrefix + gameId + "?" + query)
    ensures h + (LobbyPrefix + gameId + "?" + query) == h + "/lobby" + ['/'] + gameId + ['?'] + query
  {
    LobbyPrefixShape();
  }

  /** Everything from the first '?' of an invite link is discarded: the query never reaches the id. */
  lemma QueryDropped(clientUrl: string, gameId: string, query: string)
    requires '?' !in clientUrl
    requires '/' !in gameId && '?' !in gameId
    ensures ExtractGameId(clientUrl + LobbyPrefix + gameId + "?" + query) == gameId
  {
    var rest := LobbyPrefix + gameId + "?" + query;
    LinkWithQueryShape(clientUrl, gameId, query);
    LobbyPrefixShape();
    TrimStartAppend(clientUrl, rest);
    var h := TrimStart(clientUrl);
    assert '?' !in h by {
      assert h == clientUrl[|clientUrl| - |h|..];
    }
    LinkWithQueryShape(h, gameId, query);
    var front := h + "/lobby" + ['/'] + gameId + ['?'];
    TrimEndAppend(front, query);
    SegmentBeforeQuery(h + "/lobby", gameId, TrimEnd(query));
  }

  /** A bare game id, with no white space at its ends and no '/' or '?', is taken as it is. */
  lemma BareIdKept(gameId: string)
    requires gameId != []
    requires !IsJsWhitespace(gameId[0]) && !IsJsWhitespace(gameId[|gameId| - 1])
    requires '/' !in gameId && '?' !in gameId
    ensures ExtractGameId(gameId) == gameId
  {
    assert TrimStart(gameId) == gameId;
    TrimEndKeeps(gameId);
    BeforeFirstAbsent(gameId, '?');
    assert LastPathSegment(gameId) == gameId;
  }

  /** What submitting the form does: refuse with a message, or store the name and open the lobby. */
  datatype SubmitOutcome =
    | Refused(error: string)
    | Proceed(storedName: string, path: string)

  const InvalidInputMessage := "Enter a valid invite link or game ID."

  /** `handleSubmit`: refuses when the trimmed name or the extracted id is empty. */
  function HandleSubmit(gameInput: string, playerName: string): (o: SubmitOutcome)
    ensures o.Refused? <==> AllWhitespace(playerName) || ExtractGameId(gameInput) == ""
    ensures o.Proceed? ==> o.storedName != "" && !IsJsWhitespace(o.storedName[0])
  {
    var gameId := ExtractGameId(gameInput);
    if Trim(playerName) == [] || gameId == [] then Refused(InvalidInputMessage)
    else Proceed(Trim(playerName), LobbyPrefix + gameId)
  }

  /** Submitting an invite link with a real name opens that game's lobby. */
  lemma SubmitInviteLink(clientUrl: string, gameId: string, playerName: string)
    requires gameId != []
    requires '/' !in gameId && '?' !in gameId
    requires !IsJsWhitespace(gameId[|gameId| - 1])
    requires '?' !in clientUrl
    requires !AllWhitespace(playerName)
    ensures HandleSubmit(clientUrl + LobbyPrefix + gameId, playerName) == Proceed(Trim(playerName), LobbyPrefix + gameId)
  {
    InviteLinkRoundTrip(clientUrl, gameId);
  }
}
