/**
 Robots rules: matching a path against a pattern with `*` and a final `$`
 (section 2.2.3 of RFC 9309), and choosing among the rules that match
 (section 2.2.2).
 */
module Robots {

  /**
   Paths and patterns are sequences of bytes, each written as the character of
   that number: a rule's length is its length in bytes.
   */
  type Text = string

  // ----- what a pattern means -----------------------------------------------------------------

  /** A pattern, `*` standing for any run of characters, covers some prefix of `s`. */
  ghost predicate Covers(pattern: Text, s: Text)
    decreases |pattern|
  {
    if pattern == "" then true
    else if pattern[0] == '*' then exists i :: 0 <= i <= |s| && Covers(pattern[1..], s[i..])
    else s != "" && s[0] == pattern[0] && Covers(pattern[1..], s[1..])
  }

  /** A pattern covers the whole of `s`. */
  ghost predicate CoversAll(pattern: Text, s: Text)
    decreases |pattern|
  {
    if pattern == "" then s == ""
    else if pattern[0] == '*' then exists i :: 0 <= i <= |s| && CoversAll(pattern[1..], s[i..])
    else s != "" && s[0] == pattern[0] && CoversAll(pattern[1..], s[1..])
  }

  // ----- the pieces between the stars -----------------------------------------------------------

  function FirstStar(pattern: Text): (i: nat)
    ensures i <= |pattern|
    ensures i < |pattern| ==> pattern[i] == '*'
    ensures forall j :: 0 <= j < i ==> pattern[j] != '*'
  {
    if pattern == "" || pattern[0] == '*' then 0
    else
      var rest := FirstStar(pattern[1..]);
      assert forall j :: 1 <= j < rest + 1 ==> pattern[j] == pattern[1..][j - 1];
      rest + 1
  }

  /** A pattern split at its stars: at least one piece. */
  function Split(pattern: Text): (pieces: seq<Text>)
    ensures |pieces| >= 1
    decreases |pattern|
  {
    var i := FirstStar(pattern);
    if i == |pattern| then [pattern] else [pattern[..i]] + Split(pattern[i + 1..])
  }

  predicate StartsWith(s: Text, piece: Text) {
    |piece| <= |s| && s[..|piece|] == piece
  }

  /** Whether a piece stands at a place in `s`. */
  predicate Stands(s: Text, piece: Text, at: nat) {
    at + |piece| <= |s| && s[at..at + |piece|] == piece
  }

  /** Where a piece is first found in `s` from a place on. */
  function Find(s: Text, piece: Text, from: nat): (r: int)
    ensures r >= -1
    ensures r >= 0 ==> from <= r && Stands(s, piece, r) && forall j :: from <= j < r ==> !Stands(s, piece, j)
    ensures r == -1 ==> forall j :: from <= j ==> !Stands(s, piece, j)
    decreases |s| - from
  {
    if from + |piece| > |s| then -1
    else if Stands(s, piece, from) then from
    else Find(s, piece, from + 1)
  }

  /** The pieces found one after another, each at its first place; where the last one ends. */
  function Greedy(s: Text, pieces: seq<Text>, at: nat): (r: int)
    ensures r >= -1
    decreases |pieces|
  {
    if pieces == [] then at
    else
      var found := Find(s, pieces[0], at);
      if found == -1 then -1 else Greedy(s, pieces[1..], found + |pieces[0]|)
  }

  /** The pieces can be found one after another from a place on, somehow. */
  ghost predicate Placed(s: Text, pieces: seq<Text>, at: nat)
    decreases |pieces|
  {
    pieces == [] || exists i: nat :: at <= i && Stands(s, pieces[0], i) && Placed(s, pieces[1..], i + |pieces[0]|)
  }

  // ----- matching -----------------------------------------------------------------------------------

  function Unanchored(pattern: Text): Text {
    if pattern != "" && pattern[|pattern| - 1] == '$' then pattern[..|pattern| - 1] else pattern
  }

  predicate Anchored(pattern: Text) {
    pattern != "" && pattern[|pattern| - 1] == '$'
  }

  /** What the matcher answers. */
  predicate Matches(pattern: Text, path: Text) {
    && pattern != ""
    && var pieces := Split(Unanchored(pattern));
    && StartsWith(path, pieces[0])
    && var end := Greedy(path, pieces[1..], |pieces[0]|);
    && end != -1
    && (Anchored(pattern) && !(|pieces| > 1 && pieces[|pieces| - 1] == "") ==> end == |path|)
  }

  lemma {:induction false} LastPiece(bare: Text)
    ensures |Split(bare)| == 1 ==> !(|bare| > 0 && bare[|bare| - 1] == '*')
  {
  }

  lemma FindsNothing(s: Text, at: nat)
    requires at <= |s|
    ensures Find(s, "", at) == at
  {
  }

  method PathMatches(pattern: Text, path: Text) returns (matched: bool)
    ensures matched == Matches(pattern, path)
  {
    hide Split, Greedy;
    if pattern == "" {
      return false;
    }
    var bare := Unanchored(pattern);
    var pieces := Split(bare);
    if !StartsWith(path, pieces[0]) {
      return false;
    }
    var cursor: nat := |pieces[0]|;
    var lastEmpty := |bare| > 0 && bare[|bare| - 1] == '*';
    LastPiece(bare);
    ghost var end := Greedy(path, pieces[1..], cursor);
    for k := 1 to |pieces|
      invariant cursor <= |path| && Greedy(path, pieces[k..], cursor) == end
      invariant k > 1 ==> lastEmpty == (pieces[k - 1] == "")
      invariant k == 1 ==> lastEmpty == (|bare| > 0 && bare[|bare| - 1] == '*')
    {
      lastEmpty := pieces[k] == "";
      GreedyNext(path, pieces, k, cursor);
      if pieces[k] == "" {
        FindsNothing(path, cursor);
        continue;
      }
      var found := Find(path, pieces[k], cursor);
      if found == -1 {
        return false;
      }
      cursor := found + |pieces[k]|;
    }
    GreedyDone(path, pieces, cursor);
    if Anchored(pattern) && !lastEmpty {
      return cursor == |path|;
    }
    return true;
  }

  lemma GreedyNext(s: Text, pieces: seq<Text>, k: nat, at: nat)
    requires k < |pieces|
    ensures var found := Find(s, pieces[k], at);
      Greedy(s, pieces[k..], at) == if found == -1 then -1 else Greedy(s, pieces[k + 1..], found + |pieces[k]|)
  {
    assert pieces[k..][1..] == pieces[k + 1..];
  }

  lemma GreedyDone(s: Text, pieces: seq<Text>, at: nat)
    ensures Greedy(s, pieces[|pieces|..], at) == at
  {
  }

  // ----- greedy is enough ------------------------------------------------------------------------

  lemma PlacedEarlier(s: Text, pieces: seq<Text>, a: nat, b: nat)
    requires Placed(s, pieces, b) && a <= b
    ensures Placed(s, pieces, a)
  {
    if pieces != [] {
      var i: nat :| b <= i && Stands(s, pieces[0], i) && Placed(s, pieces[1..], i + |pieces[0]|);
    }
  }

  /** Taking every piece at its first place finds a placing whenever there is one. */
  lemma {:induction false} GreedyPlaces(s: Text, pieces: seq<Text>, at: nat)
    ensures Greedy(s, pieces, at) != -1 <==> Placed(s, pieces, at)
    decreases |pieces|
  {
    hide Stands;
    if pieces != [] {
      var found := Find(s, pieces[0], at);
      if found != -1 {
        GreedyPlaces(s, pieces[1..], found + |pieces[0]|);
        if Placed(s, pieces, at) {
          var i: nat :| at <= i && Stands(s, pieces[0], i) && Placed(s, pieces[1..], i + |pieces[0]|);
          PlacedEarlier(s, pieces[1..], found + |pieces[0]|, i + |pieces[0]|);
        }
      }
    }
  }

  // ----- patterns and pieces --------------------------------------------------------------------------

  lemma SplitStar(pattern: Text)
    requires pattern != "" && pattern[0] == '*'
    ensures Split(pattern) == [""] + Split(pattern[1..])
  {
  }

  lemma SplitLiteral(pattern: Text)
    requires pattern != "" && pattern[0] != '*'
    ensures Split(pattern) == [[pattern[0]] + Split(pattern[1..])[0]] + Split(pattern[1..])[1..]
  {
    var rest := pattern[1..];
    var i := FirstStar(rest);
    assert FirstStar(pattern) == i + 1;
    assert pattern[..i + 1] == [pattern[0]] + rest[..i];
    if i < |rest| {
      assert pattern[i + 2..] == rest[i + 1..];
      assert ([rest[..i]] + Split(rest[i + 1..]))[1..] == Split(rest[i + 1..]);
    } else {
      assert pattern == [pattern[0]] + rest;
    }
  }

  lemma StandsLiteral(s: Text, c: char, piece: Text, at: nat)
    ensures Stands(s, [c] + piece, at) <==> at < |s| && s[at] == c && Stands(s, piece, at + 1)
  {
    if at + 1 + |piece| <= |s| {
      assert s[at..at + 1 + |piece|] == [s[at]] + s[at + 1..at + 1 + |piece|];
    }
  }

  lemma SuffixOf(s: Text, at: nat, i: nat)
    requires at + i <= |s|
    ensures s[at..][i..] == s[at + i..]
  {
  }

  /** A pattern covers a prefix exactly when its first piece stands in front and the others can be placed. */
  lemma {:induction false} CoversIsPlaced(pattern: Text, s: Text, at: nat)
    requires at <= |s|
    ensures Covers(pattern, s[at..]) <==>
      Stands(s, Split(pattern)[0], at) && Placed(s, Split(pattern)[1..], at + |Split(pattern)[0]|)
    decreases |pattern|
  {
    hide Split, Stands;
    if pattern == "" {
      SplitNothing(s, at);
    } else if pattern[0] == '*' {
      SplitStar(pattern);
      assert Split(pattern)[1..] == Split(pattern[1..]);
      StarIsPlaced(pattern, s, at);
      StandsNothing(s, at);
    } else {
      SplitLiteral(pattern);
      assert Split(pattern)[1..] == Split(pattern[1..])[1..];
      StandsLiteral(s, pattern[0], Split(pattern[1..])[0], at);
      if at < |s| {
        SuffixOf(s, at, 1);
        CoversIsPlaced(pattern[1..], s, at + 1);
      }
    }
  }

  lemma StandsNothing(s: Text, at: nat)
    requires at <= |s|
    ensures Stands(s, "", at)
  {
  }

  lemma SplitNothing(s: Text, at: nat)
    requires at <= |s|
    ensures Split("") == [""] && Stands(s, "", at)
  {
  }

  lemma {:induction false} StarIsPlaced(pattern: Text, s: Text, at: nat)
    requires at <= |s| && pattern != "" && pattern[0] == '*'
    ensures Covers(pattern, s[at..]) <==> Placed(s, Split(pattern[1..]), at)
    decreases |pattern|, 0
  {
    hide Split, Stands;
    var rest, pieces := pattern[1..], Split(pattern[1..]);
    if Covers(pattern, s[at..]) {
      var i :| 0 <= i <= |s[at..]| && Covers(rest, s[at..][i..]);
      SuffixOf(s, at, i);
      CoversIsPlaced(rest, s, at + i);
      assert Stands(s, pieces[0], at + i) && Placed(s, pieces[1..], at + i + |pieces[0]|);
    }
    if Placed(s, pieces, at) {
      var i: nat :| at <= i && Stands(s, pieces[0], i) && Placed(s, pieces[1..], i + |pieces[0]|);
      StandsWithin(s, pieces[0], i);
      CoversIsPlaced(rest, s, i);
      SuffixOf(s, at, i - at);
      assert Covers(rest, s[at..][i - at..]);
    }
  }

  lemma StandsWithin(s: Text, piece: Text, at: nat)
    requires Stands(s, piece, at)
    ensures at <= |s|
  {
  }

  /** Without a final `$`, the matcher says yes exactly when the pattern covers a prefix of the path. */
  lemma UnanchoredIsExact(pattern: Text, path: Text)
    requires pattern != "" && !Anchored(pattern)
    ensures Matches(pattern, path) <==> Covers(pattern, path)
  {
    hide Split, Greedy, Covers, Placed;
    assert path[0..] == path;
    CoversIsPlaced(pattern, path, 0);
    GreedyPlaces(path, Split(pattern)[1..], |Split(pattern)[0]|);
  }

  // ----- patterns that must reach the end ---------------------------------------------------------

  /** The pieces can be found one after another from a place on, the last one ending where `s` does. */
  ghost predicate PlacedToEnd(s: Text, pieces: seq<Text>, at: nat)
    decreases |pieces|
  {
    if pieces == [] then at == |s|
    else exists i: nat :: at <= i && Stands(s, pieces[0], i) && PlacedToEnd(s, pieces[1..], i + |pieces[0]|)
  }

  lemma {:induction false} CoversAllIsPlaced(pattern: Text, s: Text, at: nat)
    requires at <= |s|
    ensures CoversAll(pattern, s[at..]) <==>
      Stands(s, Split(pattern)[0], at) && PlacedToEnd(s, Split(pattern)[1..], at + |Split(pattern)[0]|)
    decreases |pattern|
  {
    hide Split, Stands;
    if pattern == "" {
      SplitNothing(s, at);
    } else if pattern[0] == '*' {
      SplitStar(pattern);
      assert Split(pattern)[1..] == Split(pattern[1..]);
      StarIsPlacedToEnd(pattern, s, at);
      StandsNothing(s, at);
    } else {
      SplitLiteral(pattern);
      assert Split(pattern)[1..] == Split(pattern[1..])[1..];
      StandsLiteral(s, pattern[0], Split(pattern[1..])[0], at);
      if at < |s| {
        SuffixOf(s, at, 1);
        CoversAllIsPlaced(pattern[1..], s, at + 1);
      }
    }
  }

  lemma {:induction false} StarIsPlacedToEnd(pattern: Text, s: Text, at: nat)
    requires at <= |s| && pattern != "" && pattern[0] == '*'
    ensures CoversAll(pattern, s[at..]) <==> PlacedToEnd(s, Split(pattern[1..]), at)
    decreases |pattern|, 0
  {
    hide Split, Stands;
    var rest, pieces := pattern[1..], Split(pattern[1..]);
    if CoversAll(pattern, s[at..]) {
      var i :| 0 <= i <= |s[at..]| && CoversAll(rest, s[at..][i..]);
      SuffixOf(s, at, i);
      CoversAllIsPlaced(rest, s, at + i);
      assert Stands(s, pieces[0], at + i) && PlacedToEnd(s, pieces[1..], at + i + |pieces[0]|);
    }
    if PlacedToEnd(s, pieces, at) {
      var i: nat :| at <= i && Stands(s, pieces[0], i) && PlacedToEnd(s, pieces[1..], i + |pieces[0]|);
      StandsWithin(s, pieces[0], i);
      CoversAllIsPlaced(rest, s, i);
      SuffixOf(s, at, i - at);
      assert CoversAll(rest, s[at..][i - at..]);
    }
  }

  /** Placing to the end is placing all but the last piece anywhere, and the last at the end, after them. */
  lemma {:induction false} EndPlaced(s: Text, pieces: seq<Text>, at: nat)
    requires pieces != []
    ensures var init, last := pieces[..|pieces| - 1], pieces[|pieces| - 1];
      PlacedToEnd(s, pieces, at) <==>
        var c := Greedy(s, init, at); c != -1 && c + |last| <= |s| && Stands(s, last, |s| - |last|)
    decreases |pieces|
  {
    hide Stands;
    var init, last := pieces[..|pieces| - 1], pieces[|pieces| - 1];
    if |pieces| == 1 {
      OnePieceToEnd(s, pieces, at);
    } else {
      var rest := pieces[1..];
      assert init[1..] == rest[..|rest| - 1];
      var found := Find(s, pieces[0], at);
      if found != -1 {
        EndPlaced(s, rest, found + |pieces[0]|);
      }
      if PlacedToEnd(s, pieces, at) {
        var i: nat :| at <= i && Stands(s, pieces[0], i) && PlacedToEnd(s, rest, i + |pieces[0]|);
        ToEndEarlier(s, rest, found + |pieces[0]|, i + |pieces[0]|);
      }
    }
  }

  lemma OnePieceToEnd(s: Text, pieces: seq<Text>, at: nat)
    requires |pieces| == 1
    ensures PlacedToEnd(s, pieces, at) <==> at + |pieces[0]| <= |s| && Stands(s, pieces[0], |s| - |pieces[0]|)
    ensures Greedy(s, pieces[..0], at) == at
  {
    assert pieces[1..] == [] && pieces[..0] == [];
    if at + |pieces[0]| <= |s| && Stands(s, pieces[0], |s| - |pieces[0]|) {
      assert at <= |s| - |pieces[0]| && PlacedToEnd(s, [], |s| - |pieces[0]| + |pieces[0]|);
    }
  }

  lemma {:induction false} ToEndEarlier(s: Text, pieces: seq<Text>, a: nat, b: nat)
    requires pieces != [] && PlacedToEnd(s, pieces, b) && a <= b
    ensures PlacedToEnd(s, pieces, a)
  {
    var i: nat :| b <= i && Stands(s, pieces[0], i) && PlacedToEnd(s, pieces[1..], i + |pieces[0]|);
  }

  lemma {:induction false} GreedySnoc(s: Text, pieces: seq<Text>, at: nat)
    requires pieces != []
    ensures var init, last := pieces[..|pieces| - 1], pieces[|pieces| - 1];
      var c := Greedy(s, init, at);
      Greedy(s, pieces, at) == if c == -1 then -1 else if Find(s, last, c) == -1 then -1 else Find(s, last, c) + |last|
    decreases |pieces|
  {
    hide Find, Stands;
    if |pieces| == 1 {
      assert pieces == [pieces[0]] && pieces[..0] == [] && pieces[1..] == [];
    } else {
      var rest, found := pieces[1..], Find(s, pieces[0], at);
      assert rest[..|rest| - 1] == pieces[..|pieces| - 1][1..];
      if found != -1 {
        GreedySnoc(s, rest, found + |pieces[0]|);
      }
    }
  }

  /** The last piece is not met, after the others' first places, before the very end of the path. */
  ghost predicate LastMeetsEnd(bare: Text, path: Text) {
    var pieces := Split(bare);
    |pieces| > 1 && pieces[|pieces| - 1] != "" ==>
      var c := Greedy(path, pieces[1..|pieces| - 1], |pieces[0]|);
      c >= 0 ==> NotBeforeEnd(path, pieces[|pieces| - 1], c)
  }

  ghost predicate NotBeforeEnd(s: Text, piece: Text, from: nat) {
    forall i: nat :: from <= i < |s| - |piece| ==> !Stands(s, piece, i)
  }

  lemma LastFound(s: Text, last: Text, c: nat)
    ensures Find(s, last, c) != -1 && Find(s, last, c) + |last| == |s| <==>
      && c + |last| <= |s| && Stands(s, last, |s| - |last|)
      && NotBeforeEnd(s, last, c)
  {
  }

  lemma EmptyLast(s: Text, c: nat)
    requires c <= |s|
    ensures Find(s, "", c) == c && Stands(s, "", |s|)
  {
  }

  lemma {:induction false} GreedyWithin(s: Text, pieces: seq<Text>, at: nat)
    requires at <= |s|
    ensures Greedy(s, pieces, at) <= |s|
    decreases |pieces|
  {
    if pieces != [] && Find(s, pieces[0], at) != -1 {
      GreedyWithin(s, pieces[1..], Find(s, pieces[0], at) + |pieces[0]|);
    }
  }

  /** With a final `$`, what the matcher says, in terms of where it places the pieces. */
  lemma AnchoredByPieces(pattern: Text, path: Text)
    requires Anchored(pattern)
    ensures Matches(pattern, path) <==>
      CoversAll(Unanchored(pattern), path) && LastMeetsEnd(Unanchored(pattern), path)
  {
    var bare := Unanchored(pattern);
    hide Split, Greedy, CoversAll, Find, Stands, Unanchored;
    var pieces := Split(bare);
    assert path[0..] == path;
    CoversAllIsPlaced(bare, path, 0);
    StartsIsStands(path, pieces[0]);
    if |pieces| == 1 {
      assert pieces[1..] == [];
      NoPieces(path, |pieces[0]|);
    } else if StartsWith(path, pieces[0]) {
      var rest, last := pieces[1..], pieces[|pieces| - 1];
      assert rest[..|rest| - 1] == pieces[1..|pieces| - 1];
      var c := Greedy(path, rest[..|rest| - 1], |pieces[0]|);
      EndPlaced(path, rest, |pieces[0]|);
      GreedySnoc(path, rest, |pieces[0]|);
      GreedyWithin(path, rest[..|rest| - 1], |pieces[0]|);
      if c != -1 {
        LastFound(path, last, c);
        if last == "" {
          EmptyLast(path, c);
        }
      }
    }
  }

  // ----- the same, without the pieces -----------------------------------------------------------

  ghost predicate EndsInStar(pattern: Text) {
    pattern != "" && pattern[|pattern| - 1] == '*'
  }

  /** The pattern covers nothing shorter than the path. */
  ghost predicate CoversNoPrefix(pattern: Text, path: Text) {
    forall n: nat :: n < |path| ==> !CoversAll(pattern, path[..n])
  }

  lemma {:induction false} SplitEnd(pattern: Text)
    ensures |Split(pattern)| > 1 && Split(pattern)[|Split(pattern)| - 1] == "" <==> EndsInStar(pattern)
    ensures |Split(pattern)| == 1 ==> Split(pattern)[0] == pattern
    decreases |pattern|
  {
    hide Split;
    if pattern == "" {
      SplitNothing("", 0);
    } else {
      var rest := pattern[1..];
      SplitEnd(rest);
      if pattern[0] == '*' {
        SplitStar(pattern);
        if rest == "" {
          SplitNothing("", 0);
        }
      } else {
        SplitLiteral(pattern);
        assert [pattern[0]] + rest == pattern;
      }
    }
  }

  lemma {:induction false} GreedyAhead(s: Text, pieces: seq<Text>, at: nat)
    ensures Greedy(s, pieces, at) == -1 || Greedy(s, pieces, at) >= at
    decreases |pieces|
  {
    if pieces != [] && Find(s, pieces[0], at) != -1 {
      GreedyAhead(s, pieces[1..], Find(s, pieces[0], at) + |pieces[0]|);
    }
  }

  lemma StandsInPrefix(s: Text, n: nat, piece: Text, at: nat)
    requires n <= |s|
    ensures Stands(s[..n], piece, at) <==> at + |piece| <= n && Stands(s, piece, at)
  {
    if at + |piece| <= n {
      assert s[..n][at..at + |piece|] == s[at..at + |piece|];
    }
  }

  lemma {:induction false} FindInPrefix(s: Text, n: nat, piece: Text, from: nat)
    requires n <= |s|
    ensures var r := Find(s, piece, from); Find(s[..n], piece, from) == if r != -1 && r + |piece| <= n then r else -1
    decreases |s| - from
  {
    hide Stands;
    StandsInPrefix(s, n, piece, from);
    if from + |piece| <= n && !Stands(s, piece, from) {
      FindInPrefix(s, n, piece, from + 1);
    }
  }

  lemma {:induction false} GreedyInPrefix(s: Text, n: nat, pieces: seq<Text>, at: nat)
    requires at <= n <= |s|
    ensures var c := Greedy(s, pieces, at); Greedy(s[..n], pieces, at) == if c != -1 && c <= n then c else -1
    decreases |pieces|
  {
    hide Find, Stands;
    if pieces != [] {
      FindInPrefix(s, n, pieces[0], at);
      var found := Find(s, pieces[0], at);
      if found != -1 {
        GreedyAhead(s, pieces[1..], found + |pieces[0]|);
        if found + |pieces[0]| <= n {
          GreedyInPrefix(s, n, pieces[1..], found + |pieces[0]|);
        }
      }
    }
  }

  /** Covering a prefix is placing all pieces but the last anywhere, and the last where the prefix ends. */
  lemma PrefixCovered(pattern: Text, path: Text, n: nat)
    requires n <= |path| && |Split(pattern)| > 1
    ensures var pieces := Split(pattern);
      var first, last := pieces[0], pieces[|pieces| - 1];
      var c := Greedy(path, pieces[1..|pieces| - 1], |first|);
      CoversAll(pattern, path[..n]) <==>
        Stands(path, first, 0) && c != -1 && c + |last| <= n && Stands(path, last, n - |last|)
  {
    hide Split, Greedy, CoversAll, Stands;
    var pieces := Split(pattern);
    var first, last, rest := pieces[0], pieces[|pieces| - 1], pieces[1..];
    assert path[..n][0..] == path[..n];
    assert rest[..|rest| - 1] == pieces[1..|pieces| - 1];
    CoversAllIsPlaced(pattern, path[..n], 0);
    StandsInPrefix(path, n, first, 0);
    GreedyAhead(path, rest[..|rest| - 1], |first|);
    EndPlaced(path[..n], rest, |first|);
    if |first| <= n {
      GreedyInPrefix(path, n, rest[..|rest| - 1], |first|);
    }
    if |last| <= n {
      StandsInPrefix(path, n, last, n - |last|);
    }
  }

  /** A pattern of one piece covers one text, so nothing shorter than what it covers. */
  lemma OnePieceCovers(pattern: Text, path: Text)
    requires |Split(pattern)| == 1 && CoversAll(pattern, path)
    ensures CoversNoPrefix(pattern, path)
  {
    hide Split, CoversAll, Stands;
    assert Split(pattern)[1..] == [];
    assert path[0..] == path;
    CoversAllIsPlaced(pattern, path, 0);
    NoPieces(path, |Split(pattern)[0]|);
    forall n: nat | n < |path| ensures !CoversAll(pattern, path[..n]) {
      assert path[..n][0..] == path[..n];
      CoversAllIsPlaced(pattern, path[..n], 0);
      NoPieces(path[..n], |Split(pattern)[0]|);
    }
  }

  /** The last piece is not met early exactly when nothing shorter is covered. */
  lemma MeetsEndIsNoPrefix(pattern: Text, path: Text)
    requires CoversAll(pattern, path)
    ensures LastMeetsEnd(pattern, path) <==> EndsInStar(pattern) || CoversNoPrefix(pattern, path)
  {
    hide Split, Greedy, CoversAll, Stands, EndsInStar;
    SplitEnd(pattern);
    var pieces := Split(pattern);
    if |pieces| == 1 {
      OnePieceCovers(pattern, path);
    } else if pieces[|pieces| - 1] != "" {
      var last, c := pieces[|pieces| - 1], Greedy(path, pieces[1..|pieces| - 1], |pieces[0]|);
      assert path[..|path|] == path;
      PrefixCovered(pattern, path, |path|);
      if NotBeforeEnd(path, last, c) {
        forall n: nat | n < |path| ensures !CoversAll(pattern, path[..n]) {
          PrefixCovered(pattern, path, n);
        }
      }
      if CoversNoPrefix(pattern, path) {
        forall i: nat | c <= i < |path| - |last| ensures !Stands(path, last, i) {
          PrefixCovered(pattern, path, i + |last|);
        }
      }
    }
  }

  /**
   With a final `$`, the matcher says yes exactly when the pattern covers the
   whole path and, unless it ends in a star, nothing shorter: the last piece
   is taken at its first place, so a shorter cover leaves the end unreached.
   */
  lemma AnchoredIsExact(pattern: Text, path: Text)
    requires Anchored(pattern)
    ensures var bare := Unanchored(pattern);
      Matches(pattern, path) <==> CoversAll(bare, path) && (EndsInStar(bare) || CoversNoPrefix(bare, path))
  {
    hide CoversAll, EndsInStar, CoversNoPrefix, LastMeetsEnd, Matches;
    AnchoredByPieces(pattern, path);
    if CoversAll(Unanchored(pattern), path) {
      MeetsEndIsNoPrefix(Unanchored(pattern), path);
    }
  }

  lemma NoPieces(s: Text, at: nat)
    ensures Greedy(s, [], at) == at
    ensures PlacedToEnd(s, [], at) <==> at == |s|
  {
  }

  lemma StartsIsStands(s: Text, piece: Text)
    ensures StartsWith(s, piece) <==> Stands(s, piece, 0)
  {
  }

  lemma {:induction false} LiteralCovers(p: Text)
    requires forall i :: 0 <= i < |p| ==> p[i] != '*'
    ensures CoversAll(p, p) && Split(p) == [p]
    decreases |p|
  {
    if p != "" {
      LiteralCovers(p[1..]);
      SplitLiteral(p);
    }
  }

  lemma MissedCovers(s: Text, tail: Text)
    requires s == "/a.pdf.pdf" && tail == s[1..]
    ensures CoversAll("/*.pdf", s)
  {
    LiteralCovers(".pdf");
    assert tail[5..] == ".pdf";
    assert "*.pdf"[1..] == ".pdf";
    hide CoversAll;
    StarCovers("*.pdf", tail, 5);
    assert "/*.pdf"[1..] == "*.pdf";
    CharCovers("/*.pdf", s);
  }

  lemma StarCovers(pattern: Text, s: Text, i: nat)
    requires pattern != "" && pattern[0] == '*' && i <= |s| && CoversAll(pattern[1..], s[i..])
    ensures CoversAll(pattern, s)
  {
  }

  lemma CharCovers(pattern: Text, s: Text)
    requires pattern != "" && pattern[0] != '*' && s != "" && s[0] == pattern[0] && CoversAll(pattern[1..], s[1..])
    ensures CoversAll(pattern, s)
  {
  }

  lemma ShorterCovers(s: Text, tail: Text)
    requires s == "/a.pdf" && tail == s[1..]
    ensures CoversAll("/*.pdf", s)
  {
    LiteralCovers(".pdf");
    assert tail[1..] == ".pdf";
    assert "*.pdf"[1..] == ".pdf";
    hide CoversAll;
    StarCovers("*.pdf", tail, 1);
    assert "/*.pdf"[1..] == "*.pdf";
    CharCovers("/*.pdf", s);
  }

  /** A pattern that covers a path it is then said not to match: it covers the shorter `/a.pdf` too. */
  lemma AnchoredCanMiss()
    ensures CoversAll("/*.pdf", "/a.pdf.pdf") && !Matches("/*.pdf$", "/a.pdf.pdf")
  {
    hide CoversAll, Matches;
    var pattern, bare, path := "/*.pdf$", "/*.pdf", "/a.pdf.pdf";
    MissedCovers(path, path[1..]);
    ShorterCovers(path[..6], path[..6][1..]);
    assert pattern[..|pattern| - 1] == bare;
    AnchoredIsExact(pattern, path);
  }

  // ----- choosing among rules ------------------------------------------------------------------------

  datatype Rule = Rule(path: Text, allow: bool)

  /** The rules that match a path. */
  function Hits(rules: seq<Rule>, path: Text): set<Rule> {
    set rule | rule in rules && Matches(rule.path, path)
  }

  /** One of the rules that match, and no other is longer. */
  ghost predicate Longest(hits: set<Rule>, rule: Rule) {
    rule in hits && forall other :: other in hits ==> |other.path| <= |rule.path|
  }

  /** Fetching is allowed unless some rule matches and every longest one that does is a Disallow. */
  ghost predicate Allowed(hits: set<Rule>) {
    hits == {} || exists rule :: Longest(hits, rule) && rule.allow
  }

  lemma HitsNext(rules: seq<Rule>, k: nat, path: Text)
    requires k < |rules|
    ensures Matches(rules[k].path, path) ==>
      rules[k].path != "" && Hits(rules[..k + 1], path) == Hits(rules[..k], path) + {rules[k]}
    ensures !Matches(rules[k].path, path) ==> Hits(rules[..k + 1], path) == Hits(rules[..k], path)
  {
    assert rules[..k + 1] == rules[..k] + [rules[k]];
  }

  lemma HitsAll(rules: seq<Rule>, path: Text)
    ensures Hits(rules[..0], path) == {} && rules[..|rules|] == rules
  {
  }

  class Robots {
    const rules: seq<Rule>

    constructor (rules: seq<Rule>)
      ensures this.rules == rules
    {
      this.rules := rules;
    }

    /** Whether a path may be fetched: the longest rule wins, and on a tie Allow does. */
    method Allows(path: Text) returns (decision: bool)
      ensures decision <==> Allowed(Hits(rules, path))
    {
      hide Hits, Matches, Decides;
      decision := true;
      var bestLen: nat := 0;
      HitsAll(rules, path);
      DecidesAtFirst();
      for k := 0 to |rules|
        invariant Decides(Hits(rules[..k], path), bestLen, decision)
      {
        HitsNext(rules, k, path);
        var matched := PathMatches(rules[k].path, path);
        if !matched {
          continue;
        }
        DecidesNext(Hits(rules[..k], path), bestLen, decision, rules[k]);
        var len := |rules[k].path|;
        if len > bestLen || (len == bestLen && rules[k].allow) {
          bestLen := len;
          decision := rules[k].allow;
        }
      }
      DecidesAllowed(Hits(rules, path), bestLen, decision);
    }
  }

  /** The longest length met so far, zero if nothing has matched, and whether a rule that long allows. */
  ghost predicate Decides(hits: set<Rule>, bestLen: nat, decision: bool) {
    && (forall r :: r in hits ==> 0 < |r.path| <= bestLen)
    && (bestLen > 0 ==> exists r :: r in hits && |r.path| == bestLen)
    && (decision <==> bestLen == 0 || exists r :: r in hits && |r.path| == bestLen && r.allow)
  }

  lemma DecidesAtFirst()
    ensures Decides({}, 0, true)
  {
  }

  lemma DecidesNext(hits: set<Rule>, bestLen: nat, decision: bool, rule: Rule)
    requires Decides(hits, bestLen, decision) && rule.path != ""
    ensures var len := |rule.path|;
      if len > bestLen || (len == bestLen && rule.allow) then Decides(hits + {rule}, len, rule.allow)
      else Decides(hits + {rule}, bestLen, decision)
  {
  }

  lemma DecidesAllowed(hits: set<Rule>, bestLen: nat, decision: bool)
    requires Decides(hits, bestLen, decision)
    ensures decision <==> Allowed(hits)
  {
    if bestLen > 0 {
      var r :| r in hits && |r.path| == bestLen;
      if decision {
        var a :| a in hits && |a.path| == bestLen && a.allow;
        assert Longest(hits, a);
      }
    }
  }

  /** In what order the rules stand does not matter. */
  lemma OrderDoesNotMatter(xs: seq<Rule>, ys: seq<Rule>, path: Text)
    requires multiset(xs) == multiset(ys)
    ensures Allowed(Hits(xs, path)) <==> Allowed(Hits(ys, path))
  {
    hide Split, Greedy, StartsWith;
    forall r | true ensures r in xs <==> r in ys {
      assert r in multiset(xs) <==> r in multiset(ys);
    }
    assert Hits(xs, path) == Hits(ys, path);
  }
}
