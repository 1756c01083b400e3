/**
 What every builder keeps, whatever sequence of adds, ranks and absorbs made
 it: postings name only documents it holds, nothing is recorded as occurring
 nowhere, and positions ascend. This is all that serialising asks for.
 */
module Health {
  import opened Codec
  import opened Postings
  import opened Builder
  import opened SegmentFormat

  lemma HealthyIsDense(b: Build)
    requires Healthy(b)
    ensures Dense(b.terms, |b.docs|)
  {
    forall t, id | t in b.terms && id in b.terms[t] ensures id < |b.docs| {
      assert HealthyEntry(b.terms[t], |b.docs|);
    }
  }

  lemma EmptyIsHealthy(params: ParamBits)
    ensures Healthy(Empty(params))
  {
  }

  // ----- adding --------------------------------------------------------------------------

  ghost predicate NothingNowhere(terms: TermMap) {
    forall t, id :: t in terms && id in terms[t] ==> terms[t][id] != Nowhere
  }

  lemma {:induction false} PushedAllSomewhere(terms: TermMap, id: nat, field: Field, tokens: seq<Term>, n: nat)
    requires n <= |tokens| < U32_LIMIT && NothingNowhere(terms)
    ensures NothingNowhere(PushedAll(terms, id, field, tokens, n))
    decreases n
  {
    if n > 0 {
      PushedAllSomewhere(terms, id, field, tokens, n - 1);
      PushedSomewhere(PushedAll(terms, id, field, tokens, n - 1), id, field, tokens[n - 1], n - 1);
    }
  }

  lemma PushedSomewhere(terms: TermMap, id: nat, field: Field, t: Term, position: u32)
    requires NothingNowhere(terms)
    ensures NothingNowhere(Pushed(terms, id, field, t, position))
  {
    var o := Recorded(Entry(terms, t), id);
    assert o.With(field, o.In(field) + [position]).In(field) != [];
  }

  lemma {:induction false} AscendingSnoc(xs: seq<u32>, floor: u32, x: u32)
    requires AscendingFrom(xs, floor) && floor <= x && forall i :: 0 <= i < |xs| ==> xs[i] <= x
    ensures AscendingFrom(xs + [x], floor)
    decreases |xs|
  {
    if xs != [] {
      AscendingSnoc(xs[1..], xs[0], x);
      assert (xs + [x])[1..] == xs[1..] + [x];
    }
  }

  lemma {:induction false} PositionsHealthy(tokens: seq<Term>, t: Term, n: nat)
    requires n <= |tokens| < U32_LIMIT
    ensures HealthyPositions(PositionsOf(tokens, t, n))
    ensures |PositionsOf(tokens, t, n)| <= n
    ensures forall i :: 0 <= i < |PositionsOf(tokens, t, n)| ==> PositionsOf(tokens, t, n)[i] < n
    decreases n
  {
    if n > 0 {
      PositionsHealthy(tokens, t, n - 1);
      AscendingSnoc(PositionsOf(tokens, t, n - 1), 0, n - 1);
    }
  }

  lemma AddSomewhere(b: Build, d: Document)
    requires Healthy(b) && Fits(d)
    ensures NothingNowhere(AddDocument(b, d).terms)
  {
    hide Flat, PushedAll;
    var id, flat := |b.docs|, Flat(d.anchors);
    forall t, other | t in b.terms && other in b.terms[t] ensures b.terms[t][other] != Nowhere {
      assert HealthyEntry(b.terms[t], |b.docs|);
    }
    var title := PushedAll(b.terms, id, Title, d.title, |d.title|);
    var body := PushedAll(title, id, Body, d.body, |d.body|);
    PushedAllSomewhere(b.terms, id, Title, d.title, |d.title|);
    PushedAllSomewhere(title, id, Body, d.body, |d.body|);
    PushedAllSomewhere(body, id, Anchor, flat, |flat|);
  }

  lemma AddHealthyAt(b: Build, d: Document, t: Term, id: nat)
    requires Healthy(b) && Fits(d)
    requires t in AddDocument(b, d).terms && id in AddDocument(b, d).terms[t]
    ensures id <= |b.docs| && HealthyOccurrences(AddDocument(b, d).terms[t][id])
  {
    hide PositionsOf, TermsWith, Flat, HealthyPositions;
    HealthyIsDense(b);
    AddIsDense(b, d);
    AddSomewhere(b, d);
    AddRecords(b, d, t, id);
    var flat := Flat(d.anchors);
    assert Entry(AddDocument(b, d).terms, t) == AddDocument(b, d).terms[t];
    if id == |b.docs| {
      PositionsHealthy(d.title, t, |d.title|);
      PositionsHealthy(d.body, t, |d.body|);
      PositionsHealthy(flat, t, |flat|);
    } else {
      assert t in b.terms && id in b.terms[t];
      assert HealthyEntry(b.terms[t], |b.docs|);
    }
  }

  /** Adding a document keeps a builder healthy. */
  lemma AddIsHealthy(b: Build, d: Document)
    requires Healthy(b) && Fits(d) && |b.docs| + 1 < U32_LIMIT
    ensures Healthy(AddDocument(b, d))
  {
    hide HealthyOccurrences, TermsWith;
    var after := AddDocument(b, d);
    forall t | t in after.terms ensures HealthyEntry(after.terms[t], |after.docs|) {
      forall id | id in after.terms[t] ensures id < |after.docs| && HealthyOccurrences(after.terms[t][id]) {
        AddHealthyAt(b, d, t, id);
      }
    }
  }

  // ----- ranks and absorbing ----------------------------------------------------------------

  /** Setting ranks touches no posting. */
  lemma RankIsHealthy(b: Build, docs: seq<StoredDoc>)
    requires Healthy(b) && |docs| == |b.docs|
    ensures Healthy(b.(docs := docs))
  {
    forall t | t in b.terms ensures HealthyEntry(b.terms[t], |docs|) {
      assert HealthyEntry(b.terms[t], |b.docs|);
    }
  }

  lemma AbsorbedEntryHealthy(left: DocMap, right: DocMap, j: nat, k: nat)
    requires HealthyEntry(left, j) && HealthyEntry(right, k)
    ensures HealthyEntry(left + Shifted(right, j), j + k)
  {
    hide Shifted, HealthyOccurrences;
    var whole := left + Shifted(right, j);
    forall id | id in whole ensures id < j + k && HealthyOccurrences(whole[id]) {
      ShiftedHolds(right, j, id);
    }
  }

  /** Absorbing keeps a builder healthy. */
  lemma AbsorbIsHealthy(a: Build, b: Build)
    requires Healthy(a) && Healthy(b) && |a.docs| + |b.docs| < U32_LIMIT
    ensures Healthy(Absorbed(a, b))
  {
    hide AbsorbedTerms, Entry, Shifted, HealthyEntry;
    var whole := Absorbed(a, b);
    forall t | t in whole.terms ensures HealthyEntry(whole.terms[t], |whole.docs|) {
      EntryHealthy(a, t);
      EntryHealthy(b, t);
      AbsorbedEntryHealthy(Entry(a.terms, t), Entry(b.terms, t), |a.docs|, |b.docs|);
      EntryAbsorbed(a.terms, b.terms, |a.docs|, t);
      EntryIs(whole.terms, t);
    }
  }

  lemma EntryIs(terms: TermMap, t: Term)
    requires t in terms
    ensures Entry(terms, t) == terms[t]
  {
  }

  lemma EntryHealthy(b: Build, t: Term)
    requires Healthy(b)
    ensures HealthyEntry(Entry(b.terms, t), |b.docs|)
  {
  }

  /** Every one-pass index can be serialised. */
  lemma {:induction false} BuildAllIsHealthy(params: ParamBits, corpus: seq<Document>)
    requires (forall d :: d in corpus ==> Fits(d)) && |corpus| < U32_LIMIT
    ensures Healthy(BuildAll(params, corpus))
    decreases |corpus|
  {
    hide Healthy, Fits, AddDocument;
    if corpus == [] {
      EmptyIsHealthy(params);
    } else {
      var init := corpus[..|corpus| - 1];
      assert forall d :: d in init ==> d in corpus;
      BuildAllIsHealthy(params, init);
      BuildAllIsDense(params, init);
      AddIsHealthy(BuildAll(params, init), corpus[|corpus| - 1]);
    }
  }

  lemma {:induction false} AbsorbAllIsHealthy(params: ParamBits, parts: seq<Build>)
    requires forall i :: 0 <= i < |parts| ==> Healthy(parts[i])
    requires |AbsorbAll(params, parts).docs| < U32_LIMIT
    ensures Healthy(AbsorbAll(params, parts))
    decreases |parts|
  {
    hide Healthy, AbsorbedTerms;
    if parts == [] {
      EmptyIsHealthy(params);
    } else {
      AbsorbAllIsHealthy(params, parts[..|parts| - 1]);
      AbsorbIsHealthy(AbsorbAll(params, parts[..|parts| - 1]), parts[|parts| - 1]);
    }
  }
}
