/**
 The union walk: MaxScore over skipping cursors, with whole blocks left unread
 when nothing in them can reach the heap.

 `Run` and `RunExhaustive` end with the same heap, `Best` over every document
 of the segment.
 */
module MaxScore {
  import opened Wrappers
  import opened Codec
  import opened Postings
  import opened Cursor
  import opened Scoring
  import opened Sums
  import opened TopK
  import opened Retrieval
  import opened Pruning

  /** One term of the query, ready to be walked or looked up. */
  datatype QueryTerm = QueryTerm(idf: real, ceiling: real, cursor: PostingsCursor)

  lemma {:induction false} CountsAreEnough(fields: seq<FieldPosting>, positions: bool)
    ensures Weighted(FieldsView(fields, positions)) == Weighted(fields)
    decreases |fields|
  {
    if fields != [] {
      CountsAreEnough(fields[1..], positions);
      assert FieldsView(fields, positions)[1..] == FieldsView(fields[1..], positions);
    }
  }

  lemma SumOfNothing(xs: seq<nat>, f: nat -> real)
    requires |xs| == 0
    ensures Sum(xs, f) == 0.0
  {
  }

  class Scan {
    const terms: seq<QueryTerm>
    /** Indices into `terms`, by ceiling ascending. */
    const byCeiling: seq<nat>
    const excluded: seq<PostingsCursor>
    /** `prefix[i]` is the total ceiling of `byCeiling[..i]`. */
    const prefix: seq<real>
    var heap: seq<Ranked>
    const docs: seq<DocRecord>
    const average: real
    const params: Params
    const logs: Logs
    const totalDocs: nat
    /** The number an `f32` bit pattern stands for. */
    const value: u32 -> real
    /** Whether the stored block bounds bound this query's scores. */
    const boundsHold: bool

    /** The same query as postings. */
    ghost const q: Lookup

    constructor (terms: seq<QueryTerm>, byCeiling: seq<nat>, excluded: seq<PostingsCursor>, prefix: seq<real>,
                 docs: seq<DocRecord>, average: real, params: Params, logs: Logs, totalDocs: nat,
                 value: u32 -> real, boundsHold: bool, ghost q: Lookup)
      ensures this.terms == terms && this.byCeiling == byCeiling && this.excluded == excluded && this.prefix == prefix
      ensures this.docs == docs && this.average == average && this.params == params && this.logs == logs
      ensures this.totalDocs == totalDocs && this.value == value && this.boundsHold == boundsHold && this.q == q
      ensures heap == []
    {
      this.terms, this.byCeiling, this.excluded, this.prefix := terms, byCeiling, excluded, prefix;
      this.docs, this.average, this.params, this.logs := docs, average, params, logs;
      this.totalDocs, this.value, this.boundsHold, this.q := totalDocs, value, boundsHold, q;
      heap := [];
    }

    ghost predicate TermWired(i: nat)
      requires i < |terms| && i < |q.terms|
    {
      && terms[i].idf == q.terms[i].idf
      && terms[i].ceiling == Ceiling(q.terms[i])
      && terms[i].cursor.list == q.terms[i].list
      && |terms[i].cursor.bounds| == |q.terms[i].bounds|
      && forall b :: 0 <= b < |q.terms[i].bounds| ==> q.terms[i].bounds[b] == value(terms[i].cursor.bounds[b])
    }

    ghost predicate TermsWired() {
      && |terms| == |q.terms|
      && (forall i :: 0 <= i < |terms| ==> TermWired(i))
      && (forall i, j :: 0 <= i < j < |terms| ==> terms[i].cursor != terms[j].cursor)
    }

    ghost predicate ExcludedWired() {
      && |excluded| == |q.excluded|
      && (forall e :: 0 <= e < |excluded| ==> excluded[e].list == q.excluded[e] && Sound(q.excluded[e]))
      && (forall e, f :: 0 <= e < f < |excluded| ==> excluded[e] != excluded[f])
    }

    /** Looking an exclusion up never moves a term. */
    ghost predicate Apart() {
      forall i, e :: 0 <= i < |terms| && 0 <= e < |excluded| ==> terms[i].cursor != excluded[e]
    }

    ghost predicate OrderWired() {
      && Order(byCeiling, |q.terms|)
      && PrefixTotals(q, byCeiling, prefix)
      && |byCeiling| == |terms| && |prefix| == |terms| + 1
      && (forall k :: 0 <= k < |byCeiling| ==> byCeiling[k] < |terms|)
    }

    ghost predicate FieldsWired() {
      q.docs == docs && q.average == average && q.params == params && q.logs == logs && q.totalDocs == totalDocs
    }

    /** How the fields fit together and to the query they stand for; nothing here ever changes. */
    ghost predicate Wired() {
      && Sane(q)
      && (boundsHold ==> Bounded(q))
      && TermsWired() && ExcludedWired() && Apart() && OrderWired() && FieldsWired()
    }

    ghost function Cursors(): (cs: seq<PostingsCursor>)
      ensures |cs| == |terms| && forall i :: 0 <= i < |terms| ==> cs[i] == terms[i].cursor
    {
      seq(|terms|, i requires 0 <= i < |terms| => terms[i].cursor)
    }

    ghost predicate TermsLive()
      reads Cursors()
    {
      forall i :: 0 <= i < |terms| ==> terms[i].cursor.Valid()
    }

    ghost predicate ExcludedLive()
      reads excluded
    {
      forall e :: 0 <= e < |excluded| ==> excluded[e].Valid()
    }

    ghost function Positions(): (ps: seq<nat>)
      reads Cursors()
      ensures |ps| == |terms|
      ensures forall i :: 0 <= i < |terms| ==> ps[i] == terms[i].cursor.Position()
    {
      var cs := Cursors();
      seq(|terms|, i requires 0 <= i < |terms| reads cs => cs[i].Position())
    }

    /** No exclusion cursor has gone past `cur`. */
    ghost predicate ExcludedBehind(cur: nat)
      reads excluded
    {
      forall e :: 0 <= e < |excluded| ==> CursorBehind(excluded[e], cur)
    }

    ghost predicate CursorBehind(c: PostingsCursor, cur: nat)
      reads c
    {
      c.Position() <= |c.list| && forall p :: 0 <= p < c.Position() ==> c.list[p].doc < cur
    }

    /** How many of the lowest-ceilinged terms cannot, together, beat the threshold. */
    function NonEssential(threshold: real): nat {
      if !boundsHold then 0
      else
        var position := FirstAbove(prefix, threshold);
        if position == 0 then 0 else position - 1
    }

    // ----- exclusions -------------------------------------------------------------------

    /** Looks one exclusion up. */
    method Excludes(c: PostingsCursor, doc: u32) returns (hit: bool)
      requires c.Valid() && CursorBehind(c, doc) && Sound(c.list)
      modifies c
      ensures c.Valid() && CursorBehind(c, doc)
      ensures hit <==> Has(c.list, doc)
    {
      hide Laid;
      var _ := c.Seek(doc);
      hit := c.Doc() == Some(doc);
      if Has(c.list, doc) {
        assert c.list[Find(c.list, doc)].doc == doc;
      }
    }

    /** Whether an exclusion holds `doc`; stops at the first that does. */
    method Excluded(doc: u32) returns (hit: bool)
      requires ExcludedWired() && ExcludedLive() && ExcludedBehind(doc)
      modifies excluded
      ensures ExcludedLive() && ExcludedBehind(doc)
      ensures hit <==> exists e :: 0 <= e < |q.excluded| && Has(q.excluded[e], doc)
    {
      hide Sound, Has, Laid;
      for e := 0 to |excluded|
        invariant ExcludedLive() && ExcludedBehind(doc)
        invariant forall f :: 0 <= f < e ==> !Has(q.excluded[f], doc)
      {
        hit := Excludes(excluded[e], doc);
        if hit {
          return;
        }
      }
      return false;
    }

    // ----- looking at the cursors --------------------------------------------------------

    predicate On(i: nat, doc: u32)
      requires i < |terms|
      reads terms[i].cursor
    {
      terms[i].cursor.Doc() == Some(doc)
    }

    /** What term `i` adds on the document its cursor stands on. */
    function Contribution(i: nat, norm: real): real
      requires i < |terms| && norm >= 0.0
      reads terms[i].cursor
    {
      terms[i].idf * Saturation(params, terms[i].cursor.WeightedFrequency(), norm)
    }

    lemma SeenHere(i: nat, doc: u32)
      requires Sane(q) && TermsWired() && FieldsWired() && i < |terms| && terms[i].cursor.Valid()
      ensures Seen(q, Positions(), doc)(i) == if On(i, doc) then Contribution(i, Norm(q, doc)) else 0.0
    {
      hide Saturation, Norm, Laid;
      var c := terms[i].cursor;
      assert TermWired(i) && TermSound(q.terms[i]);
      if On(i, doc) {
        FindIsUnique(c.list, c.index);
        CountsAreEnough(c.list[c.index].fields, c.wantPositions);
      }
    }

    /** No essential term before index `end` of `byCeiling` stands before `doc`. */
    ghost predicate NoneBefore(split: nat, end: nat, doc: nat)
      requires end <= |byCeiling| && OrderWired()
      reads Cursors()
    {
      forall k :: split <= k < end ==>
        terms[byCeiling[k]].cursor.Doc().Some? ==> doc <= terms[byCeiling[k]].cursor.Doc().value
    }

    /** The least document the essential terms stand on, and one that does. */
    method NextDoc(split: nat) returns (next: Option<u32>, ghost at: nat)
      requires OrderWired() && split <= |byCeiling|
      ensures next.None? ==> NoneBefore(split, |byCeiling|, U32_LIMIT)
      ensures next.Some? ==>
        && split <= at < |byCeiling| && On(byCeiling[at], next.value)
        && NoneBefore(split, |byCeiling|, next.value)
    {
      hide Order, PrefixTotals;
      next, at := None, split;
      for k := split to |byCeiling|
        invariant NoneBefore(split, k, if next.Some? then next.value else U32_LIMIT)
        invariant next.Some? ==> split <= at < k && On(byCeiling[at], next.value)
      {
        var d := terms[byCeiling[k]].cursor.Doc();
        if d.Some? && (next.None? || d.value < next.value) {
          next, at := d, k;
        }
      }
    }

    /** The essential terms' real contribution, joined by the most the others could add. */
    method Optimistic(doc: u32, split: nat, norm: real) returns (total: real)
      requires Sane(q) && TermsWired() && FieldsWired() && OrderWired() && TermsLive()
      requires split <= |byCeiling| && norm == Norm(q, doc)
      ensures total == prefix[split] + Sum(byCeiling[split..], Seen(q, Positions(), doc))
    {
      hide Sane, TermsWired, FieldsWired, Order, PrefixTotals, Seen, Norm, Sum, On, Contribution, Laid,
           PostingsCursor.Valid;
      ghost var seen := Seen(q, Positions(), doc);
      SumOfNothing(byCeiling[split..split], seen);
      total := prefix[split];
      for k := split to |byCeiling|
        invariant total == prefix[split] + Sum(byCeiling[split..k], seen)
      {
        var i := byCeiling[k];
        SeenHere(i, doc);
        assert byCeiling[split..k + 1] == byCeiling[split..k] + [i];
        SumSnoc(byCeiling[split..k], i, seen);
        if On(i, doc) {
          total := total + Contribution(i, norm);
        }
      }
      assert byCeiling[split..|byCeiling|] == byCeiling[split..];
    }

    /** What every term standing on the document adds, in canonical term order. */
    method Score(doc: u32, norm: real) returns (score: real)
      requires Sane(q) && TermsWired() && FieldsWired() && TermsLive()
      requires norm == Norm(q, doc)
      ensures score == Sum(Range(|q.terms|), Seen(q, Positions(), doc))
    {
      hide Sane, TermWired, FieldsWired, Seen, Norm, Sum, On, Contribution, Laid, PostingsCursor.Valid;
      ghost var seen := Seen(q, Positions(), doc);
      SumOfNothing(Range(0), seen);
      score := 0.0;
      for i := 0 to |terms|
        invariant score == Sum(Range(i), seen)
      {
        SeenHere(i, doc);
        assert Range(i + 1) == Range(i) + [i];
        SumSnoc<nat>(Range(i), i, seen);
        if On(i, doc) {
          score := score + Contribution(i, norm);
        }
      }
    }

    // ----- moving the cursors --------------------------------------------------------------

    /** The walk moved term `i` to `doc` or the first posting after it, passing only earlier documents. */
    ghost predicate Sought(i: nat, before: nat, after: nat, doc: u32)
      requires i < |terms|
    {
      terms[i].cursor.FirstAtOrAfter(before, after, doc)
    }

    method SeekTerm(i: nat, doc: u32)
      requires TermsWired() && TermsLive() && i < |terms|
      modifies terms[i].cursor
      ensures TermsLive()
      ensures Sought(i, old(Positions())[i], Positions()[i], doc)
      ensures forall j :: 0 <= j < |terms| && j != i ==> Positions()[j] == old(Positions())[j]
    {
      hide TermWired, Laid;
      var _ := terms[i].cursor.Seek(doc);
    }

    /** Looks the non-essential terms up on this document. */
    method SeekLow(doc: u32, split: nat)
      requires TermsWired() && OrderWired() && TermsLive() && split <= |byCeiling|
      modifies Cursors()
      ensures TermsLive()
      ensures forall k :: 0 <= k < split ==>
        Sought(byCeiling[k], old(Positions())[byCeiling[k]], Positions()[byCeiling[k]], doc)
      ensures forall k :: split <= k < |byCeiling| ==> Positions()[byCeiling[k]] == old(Positions())[byCeiling[k]]
    {
      hide TermWired, PrefixTotals, Laid, Order, Sought;
      for k := 0 to split
        invariant TermsLive()
        invariant forall j :: 0 <= j < k ==>
          Sought(byCeiling[j], old(Positions())[byCeiling[j]], Positions()[byCeiling[j]], doc)
        invariant forall j :: k <= j < |byCeiling| ==> Positions()[byCeiling[j]] == old(Positions())[byCeiling[j]]
      {
        forall j | 0 <= j < |byCeiling| && j != k ensures byCeiling[j] != byCeiling[k] {
          OrderDistinct(byCeiling, |q.terms|, if j < k then j else k, if j < k then k else j);
        }
        SeekTerm(byCeiling[k], doc);
      }
    }

    /** Moves one cursor on if it stands on the document, and no other. */
    method AdvanceOn(i: nat, doc: u32)
      requires TermsWired() && TermsLive() && i < |terms|
      modifies terms[i].cursor
      ensures TermsLive()
      ensures Positions()[i] == old(Positions())[i] + if old(On(i, doc)) then 1 else 0
      ensures forall j :: 0 <= j < |terms| && j != i ==>
        Positions()[j] == old(Positions())[j] && On(j, doc) == old(On(j, doc))
    {
      hide TermWired, Laid;
      if On(i, doc) {
        var _ := terms[i].cursor.Advance();
      }
    }

    /** Advances every essential cursor standing on the document. */
    method AdvanceEssential(doc: u32, split: nat)
      requires TermsWired() && OrderWired() && TermsLive() && split <= |byCeiling|
      modifies Cursors()
      ensures TermsLive()
      ensures forall k :: 0 <= k < split ==> Positions()[byCeiling[k]] == old(Positions())[byCeiling[k]]
      ensures forall k :: split <= k < |byCeiling| ==>
        Positions()[byCeiling[k]] == old(Positions())[byCeiling[k]] + if old(On(byCeiling[k], doc)) then 1 else 0
    {
      hide TermWired, PrefixTotals, Laid, Order, TermsLive, Positions;
      for k := split to |byCeiling|
        invariant TermsLive()
        invariant forall j :: 0 <= j < split || k <= j < |byCeiling| ==>
          Positions()[byCeiling[j]] == old(Positions())[byCeiling[j]]
            && On(byCeiling[j], doc) == old(On(byCeiling[j], doc))
        invariant forall j :: split <= j < k ==>
          Positions()[byCeiling[j]] == old(Positions())[byCeiling[j]] + if old(On(byCeiling[j], doc)) then 1 else 0
      {
        var i := byCeiling[k];
        forall j | 0 <= j < |byCeiling| && j != k ensures byCeiling[j] != i {
          OrderDistinct(byCeiling, |q.terms|, if j < k then j else k, if j < k then k else j);
        }
        AdvanceOn(i, doc);
      }
    }

    // ----- the walk ---------------------------------------------------------------------------

    /** Everything at or after `cur` is still to come, except what cannot reach the heap anyway. */
    ghost predicate Walking(cur: nat, split: nat, limit: nat)
      reads Cursors(), this
    {
      && heap == Best(q, cur, limit)
      && Passed(q, Positions(), cur, Threshold(heap, limit))
      && Ahead(q, byCeiling, Positions(), split, cur)
    }

    lemma SplitIsSafe(threshold: real, split: nat)
      requires OrderWired() && threshold >= 0.0 && split == NonEssential(threshold)
      ensures split <= |terms| && prefix[split] <= threshold
    {
      assert byCeiling[..0] == [];
      assert prefix[0] == Sum(byCeiling[..0], Ceilings(q)) == 0.0;
    }

    /** A higher threshold leaves no fewer terms out of the walk. */
    lemma SplitGrows(low: real, high: real)
      requires low <= high
      ensures NonEssential(low) <= NonEssential(high)
    {
    }

    lemma NextIsAhead(split: nat, next: nat)
      requires TermsWired() && OrderWired() && TermsLive() && split <= |byCeiling|
      requires NoneBefore(split, |byCeiling|, next)
      ensures Ahead(q, byCeiling, Positions(), split, next)
    {
      hide Order, PrefixTotals, Laid;
      forall k | split <= k < |byCeiling| ensures TermAhead(q, byCeiling[k], Positions()[byCeiling[k]], next) {
        assert TermWired(byCeiling[k]);
        assert terms[byCeiling[k]].cursor.Valid();
      }
    }

    /** Moving straight to the least document the essential terms propose. */
    lemma Proceed(cur: nat, next: nat, split: nat, limit: nat)
      requires Wired() && TermsLive() && limit >= 1 && split <= |byCeiling|
      requires split == 0 || boundsHold
      requires Walking(cur, split, limit) && prefix[split] <= Threshold(heap, limit)
      requires cur <= next && Ahead(q, byCeiling, Positions(), split, next)
      ensures Walking(next, split, limit)
    {
      hide Sane, Bounded, TermsWired, ExcludedWired, Apart, Passed, Ahead, Best, Threshold, Order, PrefixTotals;
      MoveOn(q, byCeiling, prefix, split, Positions(), cur, next, limit);
    }

    /** When no essential term is left, the walk is ahead of everything. */
    lemma NoneLeft(split: nat, next: nat)
      requires TermsWired() && OrderWired() && TermsLive() && split <= |byCeiling|
      requires NoneBefore(split, |byCeiling|, U32_LIMIT)
      ensures Ahead(q, byCeiling, Positions(), split, next)
    {
      hide Order, PrefixTotals, Laid;
      forall k | split <= k < |byCeiling| ensures TermAhead(q, byCeiling[k], Positions()[byCeiling[k]], next) {
        assert TermWired(byCeiling[k]);
        assert terms[byCeiling[k]].cursor.Valid();
        assert terms[byCeiling[k]].cursor.Doc().None?;
      }
    }

    /** `prefix` ends with what all terms together could add. */
    lemma TotalCeiling()
      requires OrderWired()
      ensures prefix[|prefix| - 1] == Sum(Range(|q.terms|), Ceilings(q))
    {
      hide Ceilings;
      assert byCeiling[..|byCeiling|] == byCeiling;
      SumPermutation(byCeiling, Range(|q.terms|), Ceilings(q));
    }

    /** The first essential term standing on `doc`. */
    method FindOn(doc: u32, split: nat) returns (at: Option<nat>)
      requires OrderWired() && split <= |byCeiling|
      ensures at.Some? ==> at.value < |terms| && On(at.value, doc) && exists k ::
        split <= k < |byCeiling| && byCeiling[k] == at.value
      ensures at.None? ==> forall k :: split <= k < |byCeiling| ==> !On(byCeiling[k], doc)
    {
      hide Order, PrefixTotals, On;
      for k := split to |byCeiling|
        invariant forall j :: split <= j < k ==> !On(byCeiling[j], doc)
      {
        if On(byCeiling[k], doc) {
          return Some(byCeiling[k]);
        }
      }
      return None;
    }

    lemma BoundRead(i: nat, pos: nat)
      requires TermsWired() && i < |terms| && terms[i].cursor.Valid()
      requires terms[i].cursor.BlockBound().Some? && pos == terms[i].cursor.Position()
      ensures pos < |q.terms[i].list| && pos / SKIP_INTERVAL < |q.terms[i].bounds|
      ensures value(terms[i].cursor.BlockBound().value) == q.terms[i].bounds[pos / SKIP_INTERVAL]
    {
      var c := terms[i].cursor;
      assert TermWired(i);
      BlockIs(c.list, c.bounds, c.body, pos / SKIP_INTERVAL);
    }

    /** Skipping the block under term `i` keeps the walk intact. */
    lemma SkipKeeps(i: nat, ps: seq<nat>, qs: seq<nat>, doc: u32, split: nat, threshold: real)
      requires Wired() && boundsHold && i < |terms| && |ps| == |qs| == |terms|
      requires Passed(q, ps, doc, threshold) && Ahead(q, byCeiling, ps, split, doc)
      requires TermAhead(q, i, ps[i], doc)
      requires ps[i] < |q.terms[i].list| && ps[i] / SKIP_INTERVAL < |q.terms[i].bounds|
      requires terms[i].idf * q.terms[i].bounds[ps[i] / SKIP_INTERVAL] + (prefix[|prefix| - 1] - terms[i].ceiling)
        <= threshold
      requires qs == ps[i := BlockEnd(ps[i], |q.terms[i].list|)]
      ensures Passed(q, qs, doc, threshold) && Ahead(q, byCeiling, qs, split, doc)
      ensures Remaining(q, qs, |terms|) < Remaining(q, ps, |terms|)
    {
      hide Sane, Bounded, ExcludedWired, Apart, TermPassed, TermAhead, Ceiling, Sum, Order, PrefixTotals;
      assert TermWired(i);
      TotalCeiling();
      assert TermPassed(q, i, ps[i], doc, threshold);
      SkipIsSafe(q, i, ps[i], doc, threshold);
      RemainingShrinks(q, ps, qs, |terms|);
    }

    /** Skips the block under term `i`. */
    method SkipTerm(i: nat)
      requires TermsWired() && TermsLive() && i < |terms| && !terms[i].cursor.exhausted
      modifies terms[i].cursor
      ensures TermsLive()
      ensures Positions() == old(Positions())[i := BlockEnd(old(Positions())[i], |q.terms[i].list|)]
    {
      hide Laid;
      assert TermWired(i);
      hide TermWired;
      var _ := terms[i].cursor.SkipBlock();
    }

    /**
     Skips the block holding `doc` when nothing in it can reach the threshold,
     and says whether the cursor moved to another block. Only the cursor found
     on `doc` is moved; past its last block it runs out without moving.
     */
    method SkipHopelessBlock(doc: u32, threshold: real, split: nat) returns (skipped: bool)
      requires Wired() && boundsHold && TermsLive() && split <= |byCeiling|
      requires Passed(q, Positions(), doc, threshold) && Ahead(q, byCeiling, Positions(), split, doc)
      modifies Cursors()
      ensures TermsLive()
      ensures Passed(q, Positions(), doc, threshold) && Ahead(q, byCeiling, Positions(), split, doc)
      ensures Positions() == old(Positions())
        || Remaining(q, Positions(), |terms|) < old(Remaining(q, Positions(), |terms|))
      ensures skipped ==> Remaining(q, Positions(), |terms|) < old(Remaining(q, Positions(), |terms|))
    {
      hide Sane, Bounded, TermWired, ExcludedWired, Apart, FieldsWired, Passed, Ahead, TermAhead, Remaining, Order,
           PrefixTotals, Laid;
      var totalCeiling := prefix[|prefix| - 1];
      var at := FindOn(doc, split);
      if at.None? {
        return false;
      }
      var i := at.value;
      var bound := terms[i].cursor.BlockBound();
      if bound.None? || terms[i].idf * value(bound.value) + (totalCeiling - terms[i].ceiling) > threshold {
        return false;
      }
      var block := terms[i].cursor.CurrentBlock();
      SkipJustified(i, doc, split, threshold);
      SkipTerm(i);
      return terms[i].cursor.CurrentBlock() != block;
    }

    /** What the test on a block's best says about the walk after the block. */
    lemma SkipJustified(i: nat, doc: u32, split: nat, threshold: real)
      requires Wired() && boundsHold && TermsLive() && i < |terms| && On(i, doc)
      requires Passed(q, Positions(), doc, threshold) && Ahead(q, byCeiling, Positions(), split, doc)
      requires terms[i].cursor.BlockBound().Some?
      requires terms[i].idf * value(terms[i].cursor.BlockBound().value) + (prefix[|prefix| - 1] - terms[i].ceiling)
        <= threshold
      ensures var ps := Positions(); var qs := ps[i := BlockEnd(ps[i], |q.terms[i].list|)];
        && Passed(q, qs, doc, threshold) && Ahead(q, byCeiling, qs, split, doc)
        && Remaining(q, qs, |terms|) < Remaining(q, ps, |terms|)
    {
      hide Sane, Bounded, TermWired, ExcludedWired, Apart, FieldsWired, Passed, Ahead, TermAhead, Remaining, Order,
           PrefixTotals, Laid;
      var ps := Positions();
      BoundRead(i, ps[i]);
      StandsAhead(i, doc);
      SkipKeeps(i, ps, ps[i := BlockEnd(ps[i], |q.terms[i].list|)], doc, split, threshold);
    }

    lemma StandsAhead(i: nat, doc: u32)
      requires TermsWired() && i < |terms| && terms[i].cursor.Valid() && On(i, doc)
      ensures TermAhead(q, i, Positions()[i], doc)
    {
      hide Laid;
      assert TermWired(i);
    }

    lemma SoughtTerm(i: nat, before: nat, after: nat, doc: u32, threshold: real)
      requires TermsWired() && i < |terms| && Sought(i, before, after, doc)
      requires TermPassed(q, i, before, doc, threshold)
      ensures TermPassed(q, i, after, doc, threshold) && TermAhead(q, i, after, doc) && before <= after
    {
      assert TermWired(i);
    }

    /** Looking terms up passes nothing that matters, and leaves every cursor at or after the document. */
    lemma SoughtKeeps(ps: seq<nat>, qs: seq<nat>, doc: u32, split: nat, threshold: real)
      requires TermsWired() && OrderWired() && |ps| == |qs| == |terms| && split <= |byCeiling|
      requires Passed(q, ps, doc, threshold) && Ahead(q, byCeiling, ps, split, doc)
      requires forall k :: 0 <= k < split ==> Sought(byCeiling[k], ps[byCeiling[k]], qs[byCeiling[k]], doc)
      requires forall k :: split <= k < |byCeiling| ==> qs[byCeiling[k]] == ps[byCeiling[k]]
      ensures Passed(q, qs, doc, threshold)
      ensures |q.terms| == |terms|
      ensures forall i :: 0 <= i < |q.terms| ==> TermAhead(q, i, qs[i], doc) && ps[i] <= qs[i]
    {
      hide TermPassed, TermAhead, TermWired, Sought, PrefixTotals, Order;
      forall i | 0 <= i < |terms|
        ensures TermPassed(q, i, qs[i], doc, threshold) && TermAhead(q, i, qs[i], doc) && ps[i] <= qs[i]
      {
        OrderIndices(byCeiling, |q.terms|);
        assert i in byCeiling;
        var k :| 0 <= k < |byCeiling| && byCeiling[k] == i;
        assert TermPassed(q, i, ps[i], doc, threshold);
        if k < split {
          SoughtTerm(i, ps[i], qs[i], doc, threshold);
        }
      }
    }

    lemma NotCandidateStays(doc: nat, limit: nat)
      requires !Candidate(q, doc)
      ensures Best(q, doc + 1, limit) == Best(q, doc, limit)
    {
    }

    /** Leaving out a document whose optimistic score cannot beat the threshold. */
    lemma PrunedStays(doc: nat, split: nat, limit: nat, optimistic: real)
      requires Wired() && limit >= 1 && split <= |byCeiling| && (split == 0 || boundsHold)
      requires Walking(doc, split, limit)
      requires optimistic == prefix[split] + Sum(byCeiling[split..], Seen(q, Positions(), doc))
      requires optimistic * Auth(q, doc) <= Threshold(heap, limit)
      ensures Best(q, doc + 1, limit) == Best(q, doc, limit)
    {
      hide Sane, Bounded, TermsWired, ExcludedWired, Apart, FieldsWired, Passed, Ahead, Order, PrefixTotals, Seen, Sum,
           Auth, Candidate, FullScore, Best;
      PruneIsSafe(q, byCeiling, prefix, split, Positions(), doc, Threshold(heap, limit));
      if Candidate(q, doc) {
        HopelessChangesNothing(q, doc, limit, FullScore(q, doc));
      } else {
        NotCandidateStays(doc, limit);
      }
    }

    ghost predicate SomewhereIn(doc: nat) {
      exists i :: 0 <= i < |q.terms| && Has(q.terms[i].list, doc)
    }

    ghost predicate ExcludedSomewhere(doc: nat) {
      exists e :: 0 <= e < |q.excluded| && Has(q.excluded[e], doc)
    }

    lemma CandidateIs(doc: nat)
      requires SomewhereIn(doc) && q.docs == docs
      ensures Candidate(q, doc) <==> doc < |docs| && !ExcludedSomewhere(doc)
    {
      hide Has;
    }

    /** Scores one document, unless something cheaper rules it out first. */
    method Consider(doc: u32, threshold: real, split: nat, limit: nat)
      requires Wired() && TermsLive() && ExcludedLive() && ExcludedBehind(doc)
      requires limit >= 1 && split <= |byCeiling| && (split == 0 || boundsHold)
      requires Walking(doc, split, limit) && threshold == Threshold(heap, limit)
      requires SomewhereIn(doc)
      modifies this`heap, Cursors(), excluded
      ensures TermsLive() && ExcludedLive() && ExcludedBehind(doc)
      ensures heap == Best(q, doc + 1, limit)
      ensures Passed(q, Positions(), doc, threshold)
      ensures forall k :: split <= k < |byCeiling| ==> Positions()[byCeiling[k]] == old(Positions())[byCeiling[k]]
      ensures forall i :: 0 <= i < |terms| ==> old(Positions())[i] <= Positions()[i]
    {
      hide Sane, Bounded, TermWired, TermsWired, ExcludedWired, Passed, Ahead, Order, PrefixTotals, Candidate, Has,
           Best, Seen, Sum, Auth, Laid, Sought;
      CandidateIs(doc);
      var hit := Excluded(doc);
      assert TermsLive() && Positions() == old(Positions());
      if hit || doc >= |docs| {
        NotCandidateStays(doc, limit);
        return;
      }
      ConsiderScored(doc, threshold, split, limit);
    }

    lemma DocumentFactors(doc: nat)
      requires FieldsWired() && doc < |docs|
      ensures Norm(q, doc) == LengthNorm(params, docs[doc].length, average)
      ensures Auth(q, doc) == Authority(params, logs, docs[doc].rank, totalDocs)
    {
    }

    method ConsiderScored(doc: u32, threshold: real, split: nat, limit: nat)
      requires Wired() && TermsLive()
      requires limit >= 1 && split <= |byCeiling| && (split == 0 || boundsHold)
      requires Walking(doc, split, limit) && threshold == Threshold(heap, limit)
      requires Candidate(q, doc) && doc < |docs|
      modifies this`heap, Cursors()
      ensures TermsLive()
      ensures heap == Best(q, doc + 1, limit)
      ensures Passed(q, Positions(), doc, threshold)
      ensures forall k :: split <= k < |byCeiling| ==> Positions()[byCeiling[k]] == old(Positions())[byCeiling[k]]
      ensures forall i :: 0 <= i < |terms| ==> old(Positions())[i] <= Positions()[i]
    {
      hide Sane, Bounded, TermWired, TermsWired, ExcludedWired, Apart, Passed, Ahead, Order, PrefixTotals, Candidate,
           Best, Seen, Sum, Auth, Norm, Laid, Sought, LengthNorm, Authority, TermAhead;
      DocumentFactors(doc);
      var norm := LengthNorm(params, docs[doc].length, average);
      var authority := Authority(params, logs, docs[doc].rank, totalDocs);
      var optimistic := Optimistic(doc, split, norm);
      if optimistic * authority <= threshold {
        PrunedStays(doc, split, limit, optimistic);
        return;
      }
      SeekLow(doc, split);
      SoughtKeeps(old(Positions()), Positions(), doc, split, threshold);
      var score := Score(doc, norm);
      score := score * authority;
      PushIsExact(q, Positions(), doc, limit, score);
      heap := Push(heap, Ranked(score, doc), limit);
    }

    lemma AdvancedTerm(i: nat, before: nat, after: nat, doc: u32, low: real, high: real)
      requires Sane(q) && TermsWired() && i < |terms| && low <= high
      requires TermPassed(q, i, before, doc, low)
      requires before <= |q.terms[i].list|
      requires after == before || (after == before + 1 && before < |q.terms[i].list|
        && q.terms[i].list[before].doc == doc)
      ensures TermPassed(q, i, after, doc + 1, high)
      ensures TermAhead(q, i, before, doc) && (after == before ==> before < |q.terms[i].list| ==>
        q.terms[i].list[before].doc != doc)
              ==> TermAhead(q, i, after, doc + 1)
    {
      assert TermSound(q.terms[i]);
    }

    /** After the essential cursors on a document advance, the walk stands just past it. */
    lemma AdvanceKeeps(ps: seq<nat>, qs: seq<nat>, on: seq<bool>, doc: u32, split: nat, low: real, high: real)
      requires Sane(q) && TermsWired() && OrderWired() && |ps| == |qs| == |on| == |terms| && split <= |byCeiling|
        && low <= high
      requires Passed(q, ps, doc, low) && Ahead(q, byCeiling, ps, split, doc)
      requires forall i :: 0 <= i < |terms| ==>
        (on[i] <==> ps[i] < |q.terms[i].list| && q.terms[i].list[ps[i]].doc == doc)
      requires forall k :: 0 <= k < split ==> qs[byCeiling[k]] == ps[byCeiling[k]]
      requires forall k :: split <= k < |byCeiling| ==>
        qs[byCeiling[k]] == ps[byCeiling[k]] + if on[byCeiling[k]] then 1 else 0
      ensures Passed(q, qs, doc + 1, high) && Ahead(q, byCeiling, qs, split, doc + 1)
      ensures forall i :: 0 <= i < |terms| ==> ps[i] <= qs[i]
    {
      hide Sane, TermPassed, TermAhead, TermWired, PrefixTotals, Order;
      forall i | 0 <= i < |terms| ensures TermPassed(q, i, qs[i], doc + 1, high) && ps[i] <= qs[i] {
        OrderIndices(byCeiling, |q.terms|);
        assert i in byCeiling;
        var k :| 0 <= k < |byCeiling| && byCeiling[k] == i;
        assert TermPassed(q, i, ps[i], doc, low);
        PassedWithin(i, ps[i], doc, low);
        AdvancedTerm(i, ps[i], qs[i], doc, low, high);
      }
      forall k | split <= k < |byCeiling| ensures TermAhead(q, byCeiling[k], qs[byCeiling[k]], doc + 1) {
        var i := byCeiling[k];
        assert TermPassed(q, i, ps[i], doc, low) && TermAhead(q, i, ps[i], doc);
        PassedWithin(i, ps[i], doc, low);
        AdvancedTerm(i, ps[i], qs[i], doc, low, high);
      }
    }

    lemma PassedWithin(i: nat, pos: nat, cur: nat, threshold: real)
      requires i < |q.terms| && TermPassed(q, i, pos, cur, threshold)
      ensures pos <= |q.terms[i].list|
    {
    }

    ghost function Left(): nat
      requires TermsWired()
      reads Cursors()
    {
      Remaining(q, Positions(), |terms|)
    }

    lemma LeftShrinks(ps: seq<nat>, qs: seq<nat>)
      requires TermsWired() && |ps| == |qs| == |terms|
      requires forall i :: 0 <= i < |terms| ==> ps[i] <= qs[i]
      ensures Remaining(q, qs, |terms|) <= Remaining(q, ps, |terms|)
      ensures (exists i :: 0 <= i < |terms| && ps[i] < qs[i] && ps[i] < |q.terms[i].list|)
              ==> Remaining(q, qs, |terms|) < Remaining(q, ps, |terms|)
    {
      hide TermWired;
      RemainingShrinks(q, ps, qs, |terms|);
    }

    lemma OnIs(i: nat, doc: u32)
      requires TermsWired() && i < |terms| && terms[i].cursor.Valid()
      ensures On(i, doc) <==> Positions()[i] < |q.terms[i].list| && q.terms[i].list[Positions()[i]].doc == doc
    {
      hide Laid;
      assert TermWired(i);
    }

    /** Steps every essential cursor off the document just dealt with. */
    method StepPast(doc: u32, split: nat, ghost low: real, ghost high: real)
      requires Sane(q) && TermsWired() && OrderWired() && TermsLive() && split <= |byCeiling| && low <= high
      requires Passed(q, Positions(), doc, low) && Ahead(q, byCeiling, Positions(), split, doc)
      modifies Cursors()
      ensures TermsLive()
      ensures Passed(q, Positions(), doc + 1, high) && Ahead(q, byCeiling, Positions(), split, doc + 1)
      ensures forall i :: 0 <= i < |terms| ==> old(Positions())[i] <= Positions()[i]
      ensures forall k :: split <= k < |byCeiling| && old(On(byCeiling[k], doc)) ==>
        var i := byCeiling[k]; old(Positions())[i] < |q.terms[i].list| && old(Positions())[i] < Positions()[i]
    {
      hide Sane, TermWired, Passed, Ahead, Order, PrefixTotals, Laid, On;
      ghost var ps := Positions();
      ghost var on := seq(|terms|, i requires 0 <= i < |terms| => ps[i] < |q.terms[i].list|
        && q.terms[i].list[ps[i]].doc == doc);
      forall i | 0 <= i < |terms| ensures on[i] <==> On(i, doc) {
        OnIs(i, doc);
      }
      AdvanceEssential(doc, split);
      AdvanceKeeps(ps, Positions(), on, doc, split, low, high);
    }

    /** Steps past a document the heap already accounts for. */
    method StepOver(doc: u32, split: nat, ghost low: real, limit: nat)
      requires Sane(q) && TermsWired() && OrderWired() && Apart() && split <= |byCeiling|
      requires TermsLive() && ExcludedLive() && ExcludedBehind(doc)
      requires heap == Best(q, doc + 1, limit) && low <= Threshold(heap, limit)
      requires Passed(q, Positions(), doc, low) && Ahead(q, byCeiling, Positions(), split, doc)
      modifies Cursors()
      ensures TermsLive() && ExcludedLive() && ExcludedBehind(doc)
      ensures Walking(doc + 1, split, limit)
      ensures Left() <= old(Left())
      ensures forall k :: split <= k < |byCeiling| && old(On(byCeiling[k], doc)) ==> Left() < old(Left())
    {
      hide Sane, TermWired, Passed, Ahead, Order, PrefixTotals, Laid, On, Best, Threshold, Remaining,
           PostingsCursor.Valid, CursorBehind;
      ghost var ps := Positions();
      StepPast(doc, split, low, Threshold(heap, limit));
      LeftShrinks(ps, Positions());
    }

    lemma StillAhead(ps: seq<nat>, qs: seq<nat>, doc: nat, split: nat)
      requires Ahead(q, byCeiling, ps, split, doc) && |qs| == |ps|
      requires forall k :: split <= k < |byCeiling| && byCeiling[k] < |ps| ==> qs[byCeiling[k]] == ps[byCeiling[k]]
      ensures Ahead(q, byCeiling, qs, split, doc)
    {
      hide TermAhead;
    }

    /** Scoring a document and stepping past it. */
    method ScoreAndAdvance(doc: u32, threshold: real, split: nat, limit: nat)
      requires Wired() && TermsLive() && ExcludedLive() && ExcludedBehind(doc)
      requires limit >= 1 && split <= |byCeiling| && (split == 0 || boundsHold)
      requires Walking(doc, split, limit) && threshold == Threshold(heap, limit)
      requires SomewhereIn(doc)
      modifies this`heap, Cursors(), excluded
      ensures TermsLive() && ExcludedLive() && ExcludedBehind(doc)
      ensures Walking(doc + 1, split, limit)
      ensures threshold <= Threshold(heap, limit)
      ensures Left() <= old(Left())
      ensures forall k :: split <= k < |byCeiling| && old(On(byCeiling[k], doc)) ==> Left() < old(Left())
    {
      hide Sane, Bounded, TermWired, ExcludedWired, FieldsWired, Passed, Ahead, Order, PrefixTotals, Best, Laid,
           Remaining, Threshold;
      ghost var ps := Positions();
      Consider(doc, threshold, split, limit);
      BestThreshold(q, doc, limit);
      ghost var mid := Positions();
      StillAhead(ps, mid, doc, split);
      assert forall k :: split <= k < |byCeiling| ==> On(byCeiling[k], doc) == old(On(byCeiling[k], doc)) by {
        forall k | split <= k < |byCeiling| ensures On(byCeiling[k], doc) == old(On(byCeiling[k], doc)) {
          OnIs(byCeiling[k], doc);
        }
      }
      StepOver(doc, split, threshold, limit);
      LeftShrinks(ps, mid);
    }

    /** A fresh walk: nothing read, nothing held. */
    ghost predicate AtStart()
      reads Cursors(), excluded, this
    {
      && TermsLive() && ExcludedLive() && ExcludedBehind(0)
      && heap == []
      && forall i :: 0 <= i < |terms| ==> Positions()[i] == 0
    }

    ghost predicate Live(cur: nat, split: nat, limit: nat)
      reads Cursors(), excluded, this
    {
      TermsLive() && ExcludedLive() && ExcludedBehind(cur) && Walking(cur, split, limit)
    }

    lemma StartsWalking(limit: nat, split: nat)
      requires Wired() && AtStart()
      ensures Walking(0, split, limit)
    {
      hide Sane, Bounded, TermWired, Order, PrefixTotals, Laid;
    }

    lemma ThresholdIsSafe(cur: nat, split: nat, limit: nat)
      requires Wired() && Walking(cur, split, limit)
      ensures Threshold(heap, limit) >= 0.0
    {
      hide Sane, Bounded, TermsWired, ExcludedWired, Passed, Ahead, Best, Order, PrefixTotals;
      BestIsHeap(q, cur, limit);
    }

    lemma WalkNarrows(cur: nat, split: nat, narrower: nat, limit: nat)
      requires Walking(cur, split, limit) && split <= narrower
      ensures Walking(cur, narrower, limit)
    {
      hide Best, Passed, TermAhead;
    }

    lemma ExclusionsStayBehind(cur: nat, next: nat)
      requires ExcludedBehind(cur) && cur <= next
      ensures ExcludedBehind(next)
    {
      forall e | 0 <= e < |excluded| ensures CursorBehind(excluded[e], next) {
        assert CursorBehind(excluded[e], cur);
      }
    }

    /** Nothing the walk has yet to reach can enter the heap. */
    lemma Finishes(cur: nat, split: nat, limit: nat)
      requires Wired() && TermsLive() && limit >= 1 && split <= |byCeiling| && (split == 0 || boundsHold)
      requires Walking(cur, split, limit) && prefix[split] <= Threshold(heap, limit)
      requires NoneBefore(split, |byCeiling|, U32_LIMIT)
      ensures heap == Best(q, |docs|, limit)
    {
      hide Sane, Bounded, TermWired, TermsWired, ExcludedWired, Apart, Passed, Ahead, Best, Threshold, Order,
           PrefixTotals, NoneBefore;
      var end := if cur <= |docs| then |docs| else cur;
      NoneLeft(split, end);
      Proceed(cur, end, split, limit);
      BestIsFinal(q, end, limit);
    }

    /** The document the walk goes to next, and what is known of it. */
    lemma Proposed(cur: nat, split: nat, limit: nat, doc: u32, at: nat)
      requires Wired() && TermsLive() && limit >= 1 && split <= |byCeiling| && (split == 0 || boundsHold)
      requires Walking(cur, split, limit) && prefix[split] <= Threshold(heap, limit)
      requires split <= at < |byCeiling| && On(byCeiling[at], doc) && NoneBefore(split, |byCeiling|, doc)
      ensures cur <= doc && Walking(doc, split, limit) && SomewhereIn(doc)
    {
      hide Sane, Bounded, TermWired, TermsWired, ExcludedWired, Apart, Passed, Best, Threshold, Order, PrefixTotals,
           NoneBefore, On;
      var i := byCeiling[at];
      OnIs(i, doc);
      assert TermAhead(q, i, Positions()[i], cur);
      assert Has(q.terms[i].list, doc);
      NextIsAhead(split, doc);
      Proceed(cur, doc, split, limit);
    }

    /** One turn of the pruning walk. */
    method Turn(limit: nat, ghost cur: nat) returns (done: bool, ghost next: nat)
      requires Wired() && limit >= 1 && Live(cur, NonEssential(Threshold(heap, limit)), limit)
      modifies this`heap, Cursors(), excluded
      ensures done ==> heap == Best(q, |docs|, limit)
      ensures !done ==> Live(next, NonEssential(Threshold(heap, limit)), limit) && Left() < old(Left())
    {
      hide Sane, Bounded, TermWired, ExcludedWired, Apart, FieldsWired, Passed, Ahead, Order, PrefixTotals, Best, Laid,
           Remaining, Threshold, NoneBefore, On, Walking, SomewhereIn;
      next := cur;
      var threshold := Threshold(heap, limit);
      var split := NonEssential(threshold);
      ThresholdIsSafe(cur, split, limit);
      SplitIsSafe(threshold, split);
      if split >= |terms| {
        NothingEssential(split);
        Finishes(cur, split, limit);
        return true, cur;
      }
      ghost var at: nat;
      var doc: Option<u32>;
      doc, at := NextDoc(split);
      if doc.None? {
        Finishes(cur, split, limit);
        return true, cur;
      }
      Proposed(cur, split, limit, doc.value, at);
      ExclusionsStayBehind(cur, doc.value);
      next := Visit(doc.value, threshold, split, limit, at);
      done := false;
    }

    /** The pruning walk: ends with exactly the reference heap, however much it left unread. */
    method Run(limit: nat)
      requires Wired() && AtStart() && limit >= 1
      modifies this`heap, Cursors(), excluded
      ensures heap == Best(q, |docs|, limit)
    {
      hide Sane, Bounded, TermWired, ExcludedWired, Apart, FieldsWired, Order, PrefixTotals, Best, Laid, Remaining,
           Walking, Threshold;
      ghost var cur: nat := 0;
      StartsWalking(limit, NonEssential(Threshold(heap, limit)));
      var done := false;
      while !done
        invariant done ==> heap == Best(q, |docs|, limit)
        invariant !done ==> Live(cur, NonEssential(Threshold(heap, limit)), limit)
        decreases !done, Left()
      {
        done, cur := Turn(limit, cur);
      }
    }

    lemma NothingEssential(split: nat)
      requires OrderWired() && split >= |byCeiling|
      ensures NoneBefore(|byCeiling|, |byCeiling|, U32_LIMIT)
    {
    }

    /** One turn of the walk at `doc`: skip the block under it, or score it and step past. */
    method Visit(doc: u32, threshold: real, split: nat, limit: nat, ghost at: nat) returns (ghost cur: nat)
      requires Wired() && limit >= 1 && split <= at < |byCeiling| && (split == 0 || boundsHold)
      requires Live(doc, split, limit) && threshold == Threshold(heap, limit) && split == NonEssential(threshold)
      requires SomewhereIn(doc) && On(byCeiling[at], doc)
      modifies this`heap, Cursors(), excluded
      ensures Live(cur, NonEssential(Threshold(heap, limit)), limit)
      ensures Left() < old(Left())
    {
      hide Sane, Bounded, TermWired, ExcludedWired, FieldsWired, Passed, Ahead, Order, PrefixTotals, Best, Laid,
           Remaining, Threshold, NoneBefore, On, SomewhereIn;
      cur := doc;
      OnIs(byCeiling[at], doc);
      if boundsHold {
        var skipped := SkipHopelessBlock(doc, threshold, split);
        assert ExcludedLive() && ExcludedBehind(doc);
        if skipped {
          return;
        }
        OnIs(byCeiling[at], doc);
      }
      ScoreAndAdvance(doc, threshold, split, limit);
      cur := doc + 1;
      ExclusionsStayBehind(doc, cur);
      SplitGrows(threshold, Threshold(heap, limit));
      WalkNarrows(cur, split, NonEssential(Threshold(heap, limit)), limit);
    }

    // ----- the same walk with no pruning ------------------------------------------------------------

    lemma AllAhead(ps: seq<nat>, doc: nat)
      requires OrderWired() && Ahead(q, byCeiling, ps, 0, doc)
      ensures forall i :: 0 <= i < |q.terms| ==> TermAhead(q, i, ps[i], doc)
    {
      hide TermAhead, PrefixTotals;
      OrderIndices(byCeiling, |q.terms|);
      forall i | 0 <= i < |q.terms| ensures TermAhead(q, i, ps[i], doc) {
        assert i in byCeiling;
        var k :| 0 <= k < |byCeiling| && byCeiling[k] == i;
      }
    }

    /** Scores one document and pushes it, whatever its score. */
    method PushScored(doc: u32, limit: nat)
      requires Wired() && TermsLive() && limit >= 1 && Walking(doc, 0, limit)
      requires Candidate(q, doc) && doc < |docs|
      modifies this`heap
      ensures heap == Best(q, doc + 1, limit)
    {
      hide Sane, Bounded, TermWired, TermsWired, ExcludedWired, Apart, Passed, Ahead, Order, PrefixTotals, Candidate,
           Best, Seen, Sum, Auth, Norm, Laid, LengthNorm, Authority, TermAhead;
      DocumentFactors(doc);
      var norm := LengthNorm(params, docs[doc].length, average);
      var score := Score(doc, norm);
      score := score * Authority(params, logs, docs[doc].rank, totalDocs);
      AllAhead(Positions(), doc);
      PushIsExact(q, Positions(), doc, limit, score);
      heap := Push(heap, Ranked(score, doc), limit);
    }

    method ScoreFully(doc: u32, limit: nat)
      requires Wired() && limit >= 1 && Live(doc, 0, limit) && SomewhereIn(doc)
      modifies this`heap, excluded
      ensures heap == Best(q, doc + 1, limit)
      ensures TermsLive() && ExcludedLive() && ExcludedBehind(doc)
      ensures Positions() == old(Positions())
      ensures forall i :: 0 <= i < |terms| ==> On(i, doc) == old(On(i, doc))
    {
      hide Sane, Bounded, TermWired, TermsWired, FieldsWired, Passed, Ahead, Order, PrefixTotals, Best, Laid, On,
           Candidate, ExcludedWired, SomewhereIn;
      FieldsAgree();
      CandidateIs(doc);
      var dropped := Excluded(doc);
      assert TermsLive() && Positions() == old(Positions());
      if !dropped && doc < |docs| {
        PushScored(doc, limit);
      } else {
        NotCandidateStays(doc, limit);
      }
    }

    method VisitFully(doc: u32, limit: nat, ghost at: nat)
      requires Wired() && limit >= 1 && at < |byCeiling|
      requires Live(doc, 0, limit) && SomewhereIn(doc) && On(byCeiling[at], doc)
      modifies this`heap, Cursors(), excluded
      ensures TermsLive() && ExcludedLive() && ExcludedBehind(doc)
      ensures Walking(doc + 1, 0, limit)
      ensures Left() < old(Left())
    {
      hide Sane, Bounded, TermWired, FieldsWired, Passed, Ahead, Order, PrefixTotals, Best, Laid, Remaining, Threshold,
           On, ExcludedWired, SomewhereIn;
      ghost var low := Threshold(heap, limit);
      ScoreFully(doc, limit);
      BestThreshold(q, doc, limit);
      StepOver(doc, 0, low, limit);
    }

    lemma NothingIsFree()
      requires OrderWired()
      ensures prefix[0] == 0.0
    {
      assert byCeiling[..0] == [];
      assert prefix[0] == Sum(byCeiling[..0], Ceilings(q));
    }

    lemma FieldsAgree()
      requires Wired()
      ensures q.docs == docs
    {
    }

    /** The walk goes on to the next document any term proposes. */
    method VisitNext(doc: u32, limit: nat, ghost cur: nat, ghost at: nat)
      requires Wired() && limit >= 1 && Live(cur, 0, limit)
      requires at < |byCeiling| && On(byCeiling[at], doc) && NoneBefore(0, |byCeiling|, doc)
      modifies this`heap, Cursors(), excluded
      ensures Live(doc + 1, 0, limit) && Left() < old(Left())
    {
      hide Sane, Bounded, TermWired, ExcludedWired, Apart, FieldsWired, Passed, Ahead, Order, PrefixTotals, Best, Laid,
           Remaining, Threshold, NoneBefore, On, Walking, SomewhereIn, TermsLive, ExcludedLive, ExcludedBehind,
           OrderWired, TermsWired;
      NothingIsFree();
      ThresholdIsSafe(cur, 0, limit);
      Proposed(cur, 0, limit, doc, at);
      ExclusionsStayBehind(cur, doc);
      VisitFully(doc, limit, at);
      ExclusionsStayBehind(doc, doc + 1);
    }

    lemma FinishesFully(cur: nat, limit: nat)
      requires Wired() && limit >= 1 && Live(cur, 0, limit) && NoneBefore(0, |byCeiling|, U32_LIMIT)
      ensures heap == Best(q, |docs|, limit)
    {
      hide Sane, Bounded, TermWired, ExcludedWired, Apart, FieldsWired, Order, PrefixTotals, Best, Threshold,
           NoneBefore,
           Walking, TermsLive, ExcludedLive, ExcludedBehind, OrderWired, TermsWired;
      NothingIsFree();
      ThresholdIsSafe(cur, 0, limit);
      Finishes(cur, 0, limit);
    }

    /** One turn of the walk that prunes nothing. */
    method TurnFully(limit: nat, ghost cur: nat) returns (done: bool, ghost next: nat)
      requires Wired() && limit >= 1 && Live(cur, 0, limit)
      modifies this`heap, Cursors(), excluded
      ensures done ==> heap == Best(q, |docs|, limit)
      ensures !done ==> Live(next, 0, limit) && Left() < old(Left())
    {
      hide Sane, Bounded, TermWired, ExcludedWired, Apart, FieldsWired, Passed, Ahead, Order, PrefixTotals, Best, Laid,
           Remaining, Threshold, NoneBefore, On, Walking, SomewhereIn, TermsLive, ExcludedLive, ExcludedBehind,
           OrderWired, TermsWired, Live, Left, Positions, Cursors;
      ghost var at: nat;
      var doc: Option<u32>;
      doc, at := NextDoc(0);
      if doc.None? {
        FinishesFully(cur, limit);
        return true, cur;
      }
      VisitNext(doc.value, limit, cur, at);
      return false, doc.value + 1;
    }

    /** The walk that prunes nothing, kept so the other has something to be identical to. */
    method RunExhaustive(limit: nat)
      requires Wired() && AtStart() && limit >= 1
      modifies this`heap, Cursors(), excluded
      ensures heap == Best(q, |docs|, limit)
    {
      hide Sane, Bounded, TermWired, ExcludedWired, Apart, FieldsWired, Order, PrefixTotals, Best, Laid, Remaining,
           Walking;
      ghost var cur: nat := 0;
      StartsWalking(limit, 0);
      var done := false;
      while !done
        invariant done ==> heap == Best(q, |docs|, limit)
        invariant !done ==> Live(cur, 0, limit)
        decreases !done, Left()
      {
        done, cur := TurnFully(limit, cur);
      }
    }
  }

  /** The first running total above the threshold, the length if there is none. */
  function FirstAbove(totals: seq<real>, threshold: real): (r: nat)
    ensures r <= |totals|
    ensures forall k :: 0 <= k < r ==> totals[k] <= threshold
    ensures r < |totals| ==> totals[r] > threshold
  {
    if totals == [] then 0
    else if totals[0] > threshold then 0
    else
      var rest := FirstAbove(totals[1..], threshold);
      assert forall k :: 1 <= k < rest + 1 ==> totals[k] == totals[1..][k - 1];
      rest + 1
  }
}
