/**
 What a stored length counts: every position recorded for the document, over
 all terms and fields. Every builder keeps it so.
 */
module TokenCount {
  import opened Codec
  import opened Builder

  function Occurring(o: Occurrences): nat {
    |o.title| + |o.body| + |o.anchor|
  }

  /** How often each term is recorded for one document. */
  function CountIn(terms: TermMap, id: nat): Term -> nat {
    (t: Term) => Occurring(Recorded(Entry(terms, t), id))
  }

  function Total(names: seq<Term>, f: Term -> nat): nat {
    if names == [] then 0 else Total(names[..|names| - 1], f) + f(names[|names| - 1])
  }

  /** A list of terms, each once, with every term of a builder in it. */
  ghost predicate Lists(names: seq<Term>, terms: TermMap) {
    && (forall i, j :: 0 <= i < j < |names| ==> names[i] != names[j])
    && forall t :: t in terms ==> t in names
  }

  lemma {:induction false} TotalSame(names: seq<Term>, f: Term -> nat, g: Term -> nat)
    requires forall i :: 0 <= i < |names| ==> f(names[i]) == g(names[i])
    ensures Total(names, f) == Total(names, g)
    decreases |names|
  {
    if names != [] {
      TotalSame(names[..|names| - 1], f, g);
    }
  }

  lemma {:induction false} TotalAdds(names: seq<Term>, f: Term -> nat, g: Term -> nat, h: Term -> nat)
    requires forall i :: 0 <= i < |names| ==> h(names[i]) == f(names[i]) + g(names[i])
    ensures Total(names, h) == Total(names, f) + Total(names, g)
    decreases |names|
  {
    if names != [] {
      TotalAdds(names[..|names| - 1], f, g, h);
    }
  }

  /** One for a term and nothing for the others. */
  lemma {:induction false} TotalOfOne(names: seq<Term>, t: Term, f: Term -> nat)
    requires forall i, j :: 0 <= i < j < |names| ==> names[i] != names[j]
    requires forall u :: f(u) == if u == t then 1 else 0
    ensures Total(names, f) == if t in names then 1 else 0
    decreases |names|
  {
    if names != [] {
      var init, last := names[..|names| - 1], names[|names| - 1];
      TotalOfOne(init, t, f);
      assert names == init + [last];
    }
  }

  // ----- what one field records ------------------------------------------------------------------

  /** The positions of a term are exactly those at which it stands. */
  lemma {:induction false} PositionsAre(tokens: seq<Term>, t: Term, n: nat, i: u32)
    requires n <= |tokens| < U32_LIMIT
    ensures i in PositionsOf(tokens, t, n) <==> i < n && tokens[i] == t
    decreases n
  {
    if n > 0 {
      PositionsAre(tokens, t, n - 1, i);
    }
  }

  /** A token of an anchor is numbered after all those of the anchors before it. */
  lemma {:induction false} AnchorAt(anchors: seq<seq<Term>>, i: nat, j: nat)
    requires i < |anchors| && j < |anchors[i]|
    ensures |Flat(anchors[..i])| + j < |Flat(anchors)|
    ensures Flat(anchors)[|Flat(anchors[..i])| + j] == anchors[i][j]
    ensures |Flat(anchors[..i + 1])| == |Flat(anchors[..i])| + |anchors[i]|
    decreases |anchors|
  {
    var init := anchors[..|anchors| - 1];
    assert anchors[..i + 1][..i] == anchors[..i];
    if i < |init| {
      AnchorAt(init, i, j);
      assert init[..i] == anchors[..i];
    }
  }

  /** The position is one of this anchor's. */
  ghost predicate WithinAnchor(anchors: seq<seq<Term>>, i: nat, p: nat)
    requires i < |anchors|
  {
    |Flat(anchors[..i])| <= p < |Flat(anchors[..i + 1])|
  }

  /** Two words in a row, the first in one anchor and the second in a later one. */
  ghost predicate Straddle(anchors: seq<seq<Term>>, i: nat, j: nat, p: nat) {
    i < j < |anchors| && WithinAnchor(anchors, i, p) && WithinAnchor(anchors, j, p + 1)
  }

  lemma FlatStep(anchors: seq<seq<Term>>, i: nat)
    requires i < |anchors|
    ensures |Flat(anchors[..i + 1])| == |Flat(anchors[..i])| + |anchors[i]|
  {
    assert anchors[..i + 1][..i] == anchors[..i];
  }

  /** Empty anchors take no position. */
  lemma {:induction false} EmptyTakeNone(anchors: seq<seq<Term>>, i: nat, j: nat)
    requires i <= j <= |anchors| && forall k :: i <= k < j ==> anchors[k] == []
    ensures |Flat(anchors[..j])| == |Flat(anchors[..i])|
    decreases j - i
  {
    if i < j {
      FlatStep(anchors, j - 1);
      EmptyTakeNone(anchors, i, j - 1);
    }
  }

  /** The first anchor with a word in it, from one on. */
  lemma {:induction false} NextWords(anchors: seq<seq<Term>>, i: nat, j: nat) returns (k: nat)
    requires i <= j < |anchors| && anchors[j] != []
    ensures i <= k <= j && anchors[k] != [] && forall m :: i <= m < k ==> anchors[m] == []
    decreases j - i
  {
    if anchors[i] != [] || i == j {
      k := i;
    } else {
      k := NextWords(anchors, i + 1, j);
    }
  }

  /**
   Positions run on from one anchor to the next, so words of two links can
   stand in a row: exactly when at least two anchors have a word in them.
   */
  lemma StraddlesExactly(anchors: seq<seq<Term>>)
    ensures (exists i, j, p :: Straddle(anchors, i, j, p))
       <==> exists i, j :: 0 <= i < j < |anchors| && anchors[i] != [] && anchors[j] != []
  {
    hide Flat;
    if i, j, p :| Straddle(anchors, i, j, p) {
      FlatStep(anchors, i);
      FlatStep(anchors, j);
    }
    if i, j :| 0 <= i < j < |anchors| && anchors[i] != [] && anchors[j] != [] {
      var k := NextWords(anchors, i + 1, j);
      EmptyTakeNone(anchors, i + 1, k);
      FlatStep(anchors, i);
      FlatStep(anchors, k);
      assert Straddle(anchors, i, k, |Flat(anchors[..i + 1])| - 1);
    }
  }

  function Placed(tokens: seq<Term>, n: nat): Term -> nat
    requires n <= |tokens| < U32_LIMIT
  {
    (t: Term) => |PositionsOf(tokens, t, n)|
  }

  /** Every token is recorded once, under one term. */
  lemma {:induction false} TokensPlaced(names: seq<Term>, tokens: seq<Term>, n: nat)
    requires forall i, j :: 0 <= i < j < |names| ==> names[i] != names[j]
    requires n <= |tokens| < U32_LIMIT && forall i :: 0 <= i < n ==> tokens[i] in names
    ensures Total(names, Placed(tokens, n)) == n
    decreases n
  {
    hide Total;
    if n == 0 {
      NothingPlaced(names, tokens);
    } else {
      TokensPlaced(names, tokens, n - 1);
      var t := tokens[n - 1];
      var one := (u: Term) => if u == t then 1 else 0;
      TotalOfOne(names, t, one);
      TotalAdds(names, Placed(tokens, n - 1), one, Placed(tokens, n));
    }
  }

  lemma {:induction false} NothingPlaced(names: seq<Term>, tokens: seq<Term>)
    requires |tokens| < U32_LIMIT
    ensures Total(names, Placed(tokens, 0)) == 0
    decreases |names|
  {
    if names != [] {
      NothingPlaced(names[..|names| - 1], tokens);
    }
  }

  // ----- what a document is stored as -------------------------------------------------------------

  /** The length stored for every document is the number of positions recorded for it. */
  ghost predicate LengthsAgree(b: Build) {
    forall id, names :: 0 <= id < |b.docs| && Lists(names, b.terms) ==>
      b.docs[id].length == Total(names, CountIn(b.terms, id))
  }

  /**
   Adding a document leaves those before it as they were, and stores the new
   one's uri and as its length the number of positions recorded for it.
   */
  lemma AddedDocument(b: Build, d: Document, names: seq<Term>)
    requires Dense(b.terms, |b.docs|) && Fits(d) && Lists(names, AddDocument(b, d).terms)
    ensures var after := AddDocument(b, d);
      && |after.docs| == |b.docs| + 1 && after.docs[..|b.docs|] == b.docs
      && var stored := after.docs[|b.docs|];
      && stored.uri == d.uri && stored.rank == 0
      && stored.length == Total(names, CountIn(after.terms, |b.docs|))
      && after.params == b.params
  {
    hide Total, TermsWith, Flat, PositionsOf, Dense;
    var after, flat := AddDocument(b, d), Flat(d.anchors);
    forall t | true
      ensures Recorded(Entry(after.terms, t), |b.docs|) == Occurrences(PositionsOf(d.title, t, |d.title|),
                PositionsOf(d.body, t, |d.body|), PositionsOf(flat, t, |flat|))
      ensures t in d.title || t in d.body || t in flat ==> t in names
    {
      AddRecords(b, d, t, |b.docs|);
    }
    TokensPlaced(names, d.title, |d.title|);
    TokensPlaced(names, d.body, |d.body|);
    TokensPlaced(names, flat, |flat|);
    var title, body, anchor := Placed(d.title, |d.title|), Placed(d.body, |d.body|), Placed(flat, |flat|);
    var both := (t: Term) => title(t) + body(t);
    TotalAdds(names, title, body, both);
    TotalAdds(names, both, anchor, CountIn(after.terms, |b.docs|));
  }

  /** Where two anchors straddle, the index has the last word of the one just before the first of the other. */
  lemma StraddleIsRecorded(b: Build, d: Document, i: nat, j: nat, p: nat)
    requires Dense(b.terms, |b.docs|) && Fits(d) && Straddle(d.anchors, i, j, p)
    ensures d.anchors[i] != [] && d.anchors[j] != []
    ensures var after, id := AddDocument(b, d), |b.docs|;
      && p in Recorded(Entry(after.terms, d.anchors[i][|d.anchors[i]| - 1]), id).anchor
      && p + 1 in Recorded(Entry(after.terms, d.anchors[j][0]), id).anchor
  {
    hide Flat, Dense, TermsWith, Entry, Recorded, PositionsOf;
    FlatStep(d.anchors, i);
    FlatStep(d.anchors, j);
    FlatGrows(d.anchors, i + 1, j);
    var t, u, flat := d.anchors[i][|d.anchors[i]| - 1], d.anchors[j][0], Flat(d.anchors);
    AnchorAt(d.anchors, i, |d.anchors[i]| - 1);
    AnchorAt(d.anchors, j, 0);
    AddRecords(b, d, t, |b.docs|);
    AddRecords(b, d, u, |b.docs|);
    PositionsAre(flat, t, |flat|, p);
    PositionsAre(flat, u, |flat|, p + 1);
  }

  lemma {:induction false} FlatGrows(anchors: seq<seq<Term>>, i: nat, j: nat)
    requires i <= j <= |anchors|
    ensures |Flat(anchors[..i])| <= |Flat(anchors[..j])|
    decreases j - i
  {
    if i < j {
      FlatStep(anchors, j - 1);
      FlatGrows(anchors, i, j - 1);
    }
  }

  lemma EmptyAgrees(params: ParamBits)
    ensures LengthsAgree(Empty(params))
  {
  }

  /** Adding a document keeps lengths what they count. */
  lemma AddAgrees(b: Build, d: Document)
    requires Dense(b.terms, |b.docs|) && Fits(d) && LengthsAgree(b)
    ensures LengthsAgree(AddDocument(b, d))
  {
    hide Total, TermsWith, Dense, Entry, Recorded;
    var after := AddDocument(b, d);
    forall id, names | 0 <= id < |after.docs| && Lists(names, after.terms)
      ensures after.docs[id].length == Total(names, CountIn(after.terms, id))
    {
      AddedDocument(b, d, names);
      if id < |b.docs| {
        forall t | true
          ensures CountIn(after.terms, id)(t) == CountIn(b.terms, id)(t)
          ensures t in b.terms ==> t in after.terms
        {
          AddRecords(b, d, t, id);
        }
        TotalSame(names, CountIn(after.terms, id), CountIn(b.terms, id));
        assert Lists(names, b.terms);
        assert after.docs[id] == after.docs[..|b.docs|][id];
      }
    }
  }

  lemma AbsorbedRecords(x: Build, y: Build, t: Term, id: nat)
    requires Dense(x.terms, |x.docs|)
    ensures Recorded(Entry(Absorbed(x, y).terms, t), id)
      == if id < |x.docs| then Recorded(Entry(x.terms, t), id) else Recorded(Entry(y.terms, t), id - |x.docs|)
  {
    hide AbsorbedTerms, Shifted;
    EntryAbsorbed(x.terms, y.terms, |x.docs|, t);
    ShiftedHolds(Entry(y.terms, t), |x.docs|, id);
  }

  /** Absorbing keeps lengths what they count. */
  lemma AbsorbAgrees(x: Build, y: Build)
    requires Dense(x.terms, |x.docs|) && LengthsAgree(x) && LengthsAgree(y)
    ensures LengthsAgree(Absorbed(x, y))
  {
    hide Total, Dense, Entry, Recorded;
    var after, n := Absorbed(x, y), |x.docs|;
    forall id, names | 0 <= id < |after.docs| && Lists(names, after.terms)
      ensures after.docs[id].length == Total(names, CountIn(after.terms, id))
    {
      forall t | true
        ensures CountIn(after.terms, id)(t) == if id < n then CountIn(x.terms, id)(t) else CountIn(y.terms, id - n)(t)
      {
        AbsorbedRecords(x, y, t, id);
      }
      assert Lists(names, x.terms) && Lists(names, y.terms);
      if id < n {
        TotalSame(names, CountIn(after.terms, id), CountIn(x.terms, id));
      } else {
        TotalSame(names, CountIn(after.terms, id), CountIn(y.terms, id - n));
      }
    }
  }

  /** In every index built in one pass a document's length is what it counts. */
  lemma {:induction false} BuildAllAgrees(params: ParamBits, corpus: seq<Document>)
    requires forall d :: d in corpus ==> Fits(d)
    ensures LengthsAgree(BuildAll(params, corpus))
    decreases |corpus|
  {
    hide LengthsAgree, Fits, AddDocument, Dense;
    if corpus == [] {
      EmptyAgrees(params);
    } else {
      var init := corpus[..|corpus| - 1];
      assert forall d :: d in init ==> d in corpus;
      BuildAllAgrees(params, init);
      BuildAllIsDense(params, init);
      AddAgrees(BuildAll(params, init), corpus[|corpus| - 1]);
    }
  }
}
