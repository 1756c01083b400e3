/**
 Accumulating documents into an inverted index in memory.

 `SegmentBuilder` changes its maps in place, one token at a time; `Build` is
 what it holds. `AddDocument` and `Absorbed` say what adding and absorbing do
 to that value, and the lemmas say that splitting a corpus, building the parts
 apart and absorbing them in order is the same as building it in one pass.
 */
module Builder {
  import opened Codec
  import opened Postings

  type Term = seq<byte>

  /** Where one term occurs inside one document, per field. */
  datatype Occurrences = Occurrences(title: seq<u32>, body: seq<u32>, anchor: seq<u32>) {
    function In(field: Field): seq<u32> {
      match field
      case Title => title
      case Body => body
      case Anchor => anchor
    }

    function With(field: Field, positions: seq<u32>): Occurrences {
      match field
      case Title => this.(title := positions)
      case Body => this.(body := positions)
      case Anchor => this.(anchor := positions)
    }
  }

  const Nowhere := Occurrences([], [], [])

  /** Rank and parameters are kept as the bit patterns of their `f32`s. */
  datatype StoredDoc = StoredDoc(uri: seq<byte>, length: u32, rank: u32)

  datatype ParamBits = ParamBits(k1: u32, b: u32, authorityWeight: u32)

  type DocMap = map<nat, Occurrences>
  type TermMap = map<Term, DocMap>

  datatype Build = Build(terms: TermMap, docs: seq<StoredDoc>, params: ParamBits)

  /** A document already split into terms, field by field. */
  datatype Document = Document(uri: seq<byte>, title: seq<Term>, body: seq<Term>, anchors: seq<seq<Term>>)

  function Entry(terms: TermMap, t: Term): DocMap {
    if t in terms then terms[t] else map[]
  }

  function Recorded(docs: DocMap, id: nat): Occurrences {
    if id in docs then docs[id] else Nowhere
  }

  // ----- adding a document ---------------------------------------------------------------

  /** One occurrence recorded. */
  function Pushed(terms: TermMap, id: nat, field: Field, t: Term, position: u32): TermMap {
    var occurrences := Recorded(Entry(terms, t), id);
    terms[t := Entry(terms, t)[id := occurrences.With(field, occurrences.In(field) + [position])]]
  }

  /** The first `n` tokens of a field recorded, each at its index. */
  function PushedAll(terms: TermMap, id: nat, field: Field, tokens: seq<Term>, n: nat): TermMap
    requires n <= |tokens| < U32_LIMIT
  {
    if n == 0 then terms else Pushed(PushedAll(terms, id, field, tokens, n - 1), id, field, tokens[n - 1], n - 1)
  }

  /** All anchor texts share one position space. */
  function Flat(anchors: seq<seq<Term>>): seq<Term> {
    if anchors == [] then [] else Flat(anchors[..|anchors| - 1]) + anchors[|anchors| - 1]
  }

  /** Documents whose positions and length fit in 32 bits. */
  predicate Fits(d: Document) {
    |d.title| + |d.body| + |Flat(d.anchors)| < U32_LIMIT
  }

  function TermsWith(terms: TermMap, id: nat, d: Document): TermMap
    requires Fits(d)
  {
    var title := PushedAll(terms, id, Title, d.title, |d.title|);
    var body := PushedAll(title, id, Body, d.body, |d.body|);
    PushedAll(body, id, Anchor, Flat(d.anchors), |Flat(d.anchors)|)
  }

  function AddDocument(b: Build, d: Document): Build
    requires Fits(d)
  {
    Build(TermsWith(b.terms, |b.docs|, d),
          b.docs + [StoredDoc(d.uri, |d.title| + |d.body| + |Flat(d.anchors)|, 0)],
          b.params)
  }

  function Empty(params: ParamBits): Build {
    Build(map[], [], params)
  }

  /** One pass over a corpus. */
  function BuildAll(params: ParamBits, corpus: seq<Document>): Build
    requires forall d :: d in corpus ==> Fits(d)
  {
    if corpus == [] then Empty(params)
    else
      assert forall d :: d in corpus[..|corpus| - 1] ==> d in corpus;
      AddDocument(BuildAll(params, corpus[..|corpus| - 1]), corpus[|corpus| - 1])
  }

  // ----- absorbing another builder ----------------------------------------------------------

  function ShiftedIds(docs: DocMap, shift: nat): set<nat> {
    set id | id in docs :: id + shift
  }

  function Shifted(docs: DocMap, shift: nat): DocMap {
    map id | id in ShiftedIds(docs, shift) :: docs[id - shift]
  }

  lemma ShiftedHolds(docs: DocMap, shift: nat, id: nat)
    ensures id in Shifted(docs, shift) <==> id >= shift && id - shift in docs
    ensures id in Shifted(docs, shift) ==> Shifted(docs, shift)[id] == docs[id - shift]
  {
    if id >= shift && id - shift in docs {
      assert (id - shift) + shift in ShiftedIds(docs, shift);
    }
  }

  function AbsorbedTerms(left: TermMap, right: TermMap, shift: nat): (r: TermMap)
    ensures r.Keys == left.Keys + right.Keys
  {
    map t | t in left.Keys + right.Keys :: Entry(left, t) + Shifted(Entry(right, t), shift)
  }

  /** As if the documents of `right` had been added after those of `left`. */
  function Absorbed(left: Build, right: Build): Build {
    Build(AbsorbedTerms(left.terms, right.terms, |left.docs|), left.docs + right.docs, left.params)
  }

  /** No posting names a document past the last. */
  ghost predicate Dense(terms: TermMap, n: nat) {
    forall t, id :: t in terms && id in terms[t] ==> id < n
  }

  // ----- what adding records ---------------------------------------------------------------------

  /** The indices at which a term occurs, ascending. */
  function PositionsOf(tokens: seq<Term>, t: Term, n: nat): (r: seq<u32>)
    requires n <= |tokens| < U32_LIMIT
  {
    if n == 0 then []
    else if tokens[n - 1] == t then PositionsOf(tokens, t, n - 1) + [n - 1]
    else PositionsOf(tokens, t, n - 1)
  }

  lemma {:induction false} PushedAllRecords(terms: TermMap, id: nat, field: Field, tokens: seq<Term>, n: nat, t: Term,
          other: nat)
    requires n <= |tokens| < U32_LIMIT
    ensures var before := Recorded(Entry(terms, t), other);
            var after := Recorded(Entry(PushedAll(terms, id, field, tokens, n), t), other);
      after == if other == id then before.With(field, before.In(field) + PositionsOf(tokens, t, n)) else before
    ensures t in PushedAll(terms, id, field, tokens, n) <==> t in terms || t in tokens[..n]
    decreases n
  {
    if n == 0 {
      var before := Recorded(Entry(terms, t), other);
      assert before.In(field) + [] == before.In(field);
    } else {
      PushedAllRecords(terms, id, field, tokens, n - 1, t, other);
      var before := Recorded(Entry(terms, t), other);
      if tokens[n - 1] == t && other == id {
        assert before.In(field) + (PositionsOf(tokens, t, n - 1) + [n - 1])
            == (before.In(field) + PositionsOf(tokens, t, n - 1)) + [n - 1];
      }
      assert tokens[..n] == tokens[..n - 1] + [tokens[n - 1]];
    }
  }

  /** Adding a document records every term of it, in every field, at exactly its positions, and disturbs no other. */
  lemma AddRecords(b: Build, d: Document, t: Term, id: nat)
    requires Fits(d) && Dense(b.terms, |b.docs|)
    ensures Recorded(Entry(AddDocument(b, d).terms, t), id) ==
            if id == |b.docs| then
              Occurrences(PositionsOf(d.title, t, |d.title|), PositionsOf(d.body, t, |d.body|),
                          PositionsOf(Flat(d.anchors), t, |Flat(d.anchors)|))
            else Recorded(Entry(b.terms, t), id)
    ensures t in AddDocument(b, d).terms <==> t in b.terms || t in d.title || t in d.body || t in Flat(d.anchors)
  {
    hide PositionsOf, PushedAll, Flat, Dense, Recorded, Occurrences.In, Occurrences.With;
    var n := |b.docs|;
    var flat := Flat(d.anchors);
    var title := PushedAll(b.terms, n, Title, d.title, |d.title|);
    var body := PushedAll(title, n, Body, d.body, |d.body|);
    PushedAllRecords(b.terms, n, Title, d.title, |d.title|, t, id);
    PushedAllRecords(title, n, Body, d.body, |d.body|, t, id);
    PushedAllRecords(body, n, Anchor, flat, |flat|, t, id);
    assert d.title[..|d.title|] == d.title && d.body[..|d.body|] == d.body && flat[..|flat|] == flat;
    if id == n {
      NotYetRecorded(b.terms, n, t);
      Filled(PositionsOf(d.title, t, |d.title|), PositionsOf(d.body, t, |d.body|), PositionsOf(flat, t, |flat|));
    }
  }

  lemma NotYetRecorded(terms: TermMap, n: nat, t: Term)
    requires Dense(terms, n)
    ensures Recorded(Entry(terms, t), n) == Nowhere
  {
  }

  lemma Filled(title: seq<u32>, body: seq<u32>, anchor: seq<u32>)
    ensures var one := Nowhere.With(Title, Nowhere.In(Title) + title);
            var two := one.With(Body, one.In(Body) + body);
            two.With(Anchor, two.In(Anchor) + anchor) == Occurrences(title, body, anchor)
  {
    assert [] + title == title && [] + body == body && [] + anchor == anchor;
  }

  // ----- the algebra of absorbing -----------------------------------------------------------------

  lemma ShiftByNothing(docs: DocMap)
    ensures Shifted(docs, 0) == docs
  {
    forall id: nat | true ensures id in Shifted(docs, 0) <==> id in docs {
      ShiftedHolds(docs, 0, id);
    }
    forall id | id in docs ensures Shifted(docs, 0)[id] == docs[id] {
      ShiftedHolds(docs, 0, id);
    }
  }

  lemma ShiftOfNothing(shift: nat)
    ensures Shifted(map[], shift) == map[]
  {
  }

  lemma ShiftTwice(docs: DocMap, j: nat, k: nat)
    ensures Shifted(Shifted(docs, j), k) == Shifted(docs, j + k)
  {
    hide Shifted;
    var left, right := Shifted(Shifted(docs, j), k), Shifted(docs, j + k);
    forall id: nat | true
      ensures id in left <==> id in right
      ensures id in left ==> left[id] == right[id]
    {
      ShiftedHolds(Shifted(docs, j), k, id);
      if id >= k {
        ShiftedHolds(docs, j, id - k);
      }
      ShiftedHolds(docs, j + k, id);
    }
    assert left == right;
  }

  lemma ShiftUnion(x: DocMap, y: DocMap, k: nat)
    ensures Shifted(x + y, k) == Shifted(x, k) + Shifted(y, k)
  {
    hide Shifted;
    var whole, parts := Shifted(x + y, k), Shifted(x, k) + Shifted(y, k);
    forall id: nat | true
      ensures id in whole <==> id in parts
      ensures id in whole ==> whole[id] == parts[id]
    {
      ShiftedHolds(x + y, k, id);
      ShiftedHolds(x, k, id);
      ShiftedHolds(y, k, id);
    }
    assert whole == parts;
  }

  lemma EntryAbsorbed(left: TermMap, right: TermMap, shift: nat, t: Term)
    ensures Entry(AbsorbedTerms(left, right, shift), t) == Entry(left, t) + Shifted(Entry(right, t), shift)
  {
    hide Shifted;
    ShiftOfNothing(shift);
    if t !in left && t !in right {
      assert Entry(left, t) + Shifted(Entry(right, t), shift) == Entry(left, t);
    }
  }

  lemma SameTerms(x: TermMap, y: TermMap)
    requires x.Keys == y.Keys
    requires forall t :: t in x ==> Entry(x, t) == Entry(y, t)
    ensures x == y
  {
    forall t | t in x ensures x[t] == y[t] {
      assert Entry(x, t) == Entry(y, t);
    }
  }

  lemma IdentityAt(terms: TermMap, n: nat, t: Term)
    ensures Entry(AbsorbedTerms(map[], terms, 0), t) == Entry(terms, t)
    ensures Entry(AbsorbedTerms(terms, map[], n), t) == Entry(terms, t)
  {
    hide Shifted, AbsorbedTerms;
    EntryAbsorbed(map[], terms, 0, t);
    EntryAbsorbed(terms, map[], n, t);
    ShiftByNothing(Entry(terms, t));
    ShiftOfNothing(n);
  }

  /** The empty builder changes nothing on either side. */
  lemma AbsorbIdentity(b: Build)
    ensures Absorbed(Empty(b.params), b) == b
    ensures Absorbed(b, Empty(b.params)) == b
  {
    hide Entry, AbsorbedTerms;
    forall t | true
      ensures Entry(AbsorbedTerms(map[], b.terms, 0), t) == Entry(b.terms, t)
      ensures Entry(AbsorbedTerms(b.terms, map[], |b.docs|), t) == Entry(b.terms, t)
    {
      IdentityAt(b.terms, |b.docs|, t);
    }
    SameTerms(AbsorbedTerms(map[], b.terms, 0), b.terms);
    SameTerms(AbsorbedTerms(b.terms, map[], |b.docs|), b.terms);
    assert [] + b.docs == b.docs && b.docs + [] == b.docs;
  }

  lemma UnionAssociative(x: DocMap, y: DocMap, z: DocMap)
    ensures (x + y) + z == x + (y + z)
  {
  }

  lemma AssociativeAt(a: TermMap, b: TermMap, c: TermMap, j: nat, k: nat, t: Term)
    ensures Entry(AbsorbedTerms(AbsorbedTerms(a, b, j), c, j + k), t)
         == Entry(AbsorbedTerms(a, AbsorbedTerms(b, c, k), j), t)
  {
    hide Entry, Shifted, AbsorbedTerms;
    var x, y, z := Entry(a, t), Entry(b, t), Entry(c, t);
    EntryAbsorbed(AbsorbedTerms(a, b, j), c, j + k, t);
    EntryAbsorbed(a, b, j, t);
    EntryAbsorbed(a, AbsorbedTerms(b, c, k), j, t);
    EntryAbsorbed(b, c, k, t);
    ShiftUnion(y, Shifted(z, k), j);
    ShiftTwice(z, k, j);
    UnionAssociative(x, Shifted(y, j), Shifted(z, k + j));
  }

  /** Which parts are absorbed first does not matter. */
  lemma AbsorbAssociative(a: Build, b: Build, c: Build)
    ensures Absorbed(Absorbed(a, b), c) == Absorbed(a, Absorbed(b, c))
  {
    hide Entry, Shifted, AbsorbedTerms;
    var j, k := |a.docs|, |b.docs|;
    var left, right := AbsorbedTerms(AbsorbedTerms(a.terms, b.terms, j), c.terms, j + k),
                       AbsorbedTerms(a.terms, AbsorbedTerms(b.terms, c.terms, k), j);
    assert left.Keys == right.Keys;
    forall t | t in left ensures Entry(left, t) == Entry(right, t) {
      AssociativeAt(a.terms, b.terms, c.terms, j, k, t);
    }
    SameTerms(left, right);
    assert (a.docs + b.docs) + c.docs == a.docs + (b.docs + c.docs);
  }

  // ----- parallel build equals serial build ------------------------------------------------------------

  lemma RecordedAbsorbed(left: DocMap, right: DocMap, shift: nat, id: nat)
    requires forall d :: d in left ==> d < shift
    ensures Recorded(left + Shifted(right, shift), id + shift) == Recorded(right, id)
  {
    ShiftedHolds(right, shift, id + shift);
  }

  lemma EntryPushed(terms: TermMap, id: nat, field: Field, t: Term, position: u32, u: Term)
    ensures Entry(Pushed(terms, id, field, t, position), u) ==
      if u != t then Entry(terms, u)
      else
        var o := Recorded(Entry(terms, t), id);
        Entry(terms, t)[id := o.With(field, o.In(field) + [position])]
  {
  }

  lemma UpdateUnion(x: DocMap, y: DocMap, id: nat, o: Occurrences)
    ensures (x + y)[id := o] == x + y[id := o]
  {
  }

  lemma DenseEntry(terms: TermMap, n: nat, t: Term)
    requires Dense(terms, n)
    ensures forall d :: d in Entry(terms, t) ==> d < n
  {
  }

  lemma PushAbsorbedAt(left: TermMap, right: TermMap, shift: nat, id: nat, field: Field, t: Term, position: u32,
          u: Term)
    requires Dense(left, shift)
    ensures Entry(Pushed(AbsorbedTerms(left, right, shift), id + shift, field, t, position), u)
         == Entry(AbsorbedTerms(left, Pushed(right, id, field, t, position), shift), u)
  {
    hide Entry, Shifted, AbsorbedTerms, Pushed, Dense, Recorded, Occurrences.With, Occurrences.In;
    DenseEntry(left, shift, t);
    EntryPushed(AbsorbedTerms(left, right, shift), id + shift, field, t, position, u);
    EntryAbsorbed(left, right, shift, u);
    EntryAbsorbed(left, Pushed(right, id, field, t, position), shift, u);
    EntryPushed(right, id, field, t, position, u);
    if u == t {
      var x, y := Entry(left, t), Entry(right, t);
      RecordedAbsorbed(x, y, shift, id);
      var o := Recorded(y, id);
      var pushed := o.With(field, o.In(field) + [position]);
      UpdateShifted(y, id, pushed, shift);
      UpdateUnion(x, Shifted(y, shift), id + shift, pushed);
    }
  }

  /** Recording an occurrence in the absorbed part is recording it, shifted, in the whole. */
  lemma PushAbsorbed(left: TermMap, right: TermMap, shift: nat, id: nat, field: Field, t: Term, position: u32)
    requires Dense(left, shift)
    ensures Pushed(AbsorbedTerms(left, right, shift), id + shift, field, t, position)
         == AbsorbedTerms(left, Pushed(right, id, field, t, position), shift)
  {
    hide Entry, Shifted, AbsorbedTerms, Pushed, Dense, Recorded, Occurrences.With, Occurrences.In;
    var whole, parts := Pushed(AbsorbedTerms(left, right, shift), id + shift, field, t, position),
                        AbsorbedTerms(left, Pushed(right, id, field, t, position), shift);
    forall u | true ensures Entry(whole, u) == Entry(parts, u) {
      PushAbsorbedAt(left, right, shift, id, field, t, position, u);
    }
    PushAbsorbedKeys(left, right, shift, id, field, t, position);
    SameTerms(whole, parts);
  }

  lemma PushAbsorbedKeys(left: TermMap, right: TermMap, shift: nat, id: nat, field: Field, t: Term, position: u32)
    ensures Pushed(AbsorbedTerms(left, right, shift), id + shift, field, t, position).Keys
         == AbsorbedTerms(left, Pushed(right, id, field, t, position), shift).Keys
  {
    hide AbsorbedTerms, Pushed;
    PushedKeys(AbsorbedTerms(left, right, shift), id + shift, field, t, position);
    PushedKeys(right, id, field, t, position);
    assert left.Keys + (right.Keys + {t}) == left.Keys + right.Keys + {t};
  }

  lemma PushedKeys(terms: TermMap, id: nat, field: Field, t: Term, position: u32)
    ensures Pushed(terms, id, field, t, position).Keys == terms.Keys + {t}
  {
  }

  lemma UpdateShifted(docs: DocMap, id: nat, o: Occurrences, shift: nat)
    ensures Shifted(docs[id := o], shift) == Shifted(docs, shift)[id + shift := o]
  {
    hide Shifted;
    var left, right := Shifted(docs[id := o], shift), Shifted(docs, shift)[id + shift := o];
    forall d: nat | true
      ensures d in left <==> d in right
      ensures d in left ==> left[d] == right[d]
    {
      ShiftedHolds(docs[id := o], shift, d);
      ShiftedHolds(docs, shift, d);
    }
    assert left == right;
  }

  lemma {:induction false} PushAllAbsorbed(left: TermMap, right: TermMap, shift: nat, id: nat, field: Field,
          tokens: seq<Term>, n: nat)
    requires Dense(left, shift) && n <= |tokens| < U32_LIMIT
    ensures PushedAll(AbsorbedTerms(left, right, shift), id + shift, field, tokens, n)
         == AbsorbedTerms(left, PushedAll(right, id, field, tokens, n), shift)
    decreases n
  {
    hide AbsorbedTerms, Pushed, Dense;
    if n > 0 {
      PushAllAbsorbed(left, right, shift, id, field, tokens, n - 1);
      PushAbsorbed(left, PushedAll(right, id, field, tokens, n - 1), shift, id, field, tokens[n - 1], n - 1);
    }
  }

  /** Adding a document to what was absorbed is adding it to the part before absorbing. */
  lemma AddAbsorbed(a: Build, b: Build, d: Document)
    requires Fits(d) && Dense(a.terms, |a.docs|)
    ensures AddDocument(Absorbed(a, b), d) == Absorbed(a, AddDocument(b, d))
  {
    hide AbsorbedTerms, PushedAll, Dense;
    var shift, id := |a.docs|, |b.docs|;
    var title := PushedAll(b.terms, id, Title, d.title, |d.title|);
    var body := PushedAll(title, id, Body, d.body, |d.body|);
    PushAllAbsorbed(a.terms, b.terms, shift, id, Title, d.title, |d.title|);
    PushAllAbsorbed(a.terms, title, shift, id, Body, d.body, |d.body|);
    PushAllAbsorbed(a.terms, body, shift, id, Anchor, Flat(d.anchors), |Flat(d.anchors)|);
    var stored := StoredDoc(d.uri, |d.title| + |d.body| + |Flat(d.anchors)|, 0);
    assert (a.docs + b.docs) + [stored] == a.docs + (b.docs + [stored]);
  }

  lemma {:induction false} PushedAllDense(terms: TermMap, id: nat, field: Field, tokens: seq<Term>, n: nat)
    requires n <= |tokens| < U32_LIMIT && Dense(terms, id + 1)
    ensures Dense(PushedAll(terms, id, field, tokens, n), id + 1)
    decreases n
  {
    if n > 0 {
      PushedAllDense(terms, id, field, tokens, n - 1);
    }
  }

  lemma AddIsDense(b: Build, d: Document)
    requires Fits(d) && Dense(b.terms, |b.docs|)
    ensures Dense(AddDocument(b, d).terms, |b.docs| + 1)
  {
    var id := |b.docs|;
    var title := PushedAll(b.terms, id, Title, d.title, |d.title|);
    var body := PushedAll(title, id, Body, d.body, |d.body|);
    PushedAllDense(b.terms, id, Title, d.title, |d.title|);
    PushedAllDense(title, id, Body, d.body, |d.body|);
    PushedAllDense(body, id, Anchor, Flat(d.anchors), |Flat(d.anchors)|);
  }

  lemma {:induction false} BuildAllIsDense(params: ParamBits, corpus: seq<Document>)
    requires forall d :: d in corpus ==> Fits(d)
    ensures Dense(BuildAll(params, corpus).terms, |corpus|)
    ensures |BuildAll(params, corpus).docs| == |corpus|
    ensures BuildAll(params, corpus).params == params
    decreases |corpus|
  {
    if corpus != [] {
      var init := corpus[..|corpus| - 1];
      assert forall d :: d in init ==> d in corpus;
      BuildAllIsDense(params, init);
      AddIsDense(BuildAll(params, init), corpus[|corpus| - 1]);
    }
  }

  /** Two document lists built apart and absorbed are their concatenation built in one pass. */
  lemma {:induction false} BuildConcat(params: ParamBits, xs: seq<Document>, ys: seq<Document>)
    requires forall d :: d in xs + ys ==> Fits(d)
    ensures (forall d :: d in xs ==> Fits(d)) && (forall d :: d in ys ==> Fits(d))
    ensures Absorbed(BuildAll(params, xs), BuildAll(params, ys)) == BuildAll(params, xs + ys)
    decreases |ys|
  {
    hide AddDocument, Absorbed, Fits, Dense;
    assert forall d :: d in xs || d in ys ==> d in xs + ys;
    BuildAllIsDense(params, xs);
    if ys == [] {
      AbsorbIdentity(BuildAll(params, xs));
      assert xs + ys == xs;
    } else {
      var init, last := ys[..|ys| - 1], ys[|ys| - 1];
      assert xs + ys == (xs + init) + [last];
      assert (xs + ys)[..|xs + ys| - 1] == xs + init;
      assert forall d :: d in xs + init ==> d in xs + ys;
      BuildConcat(params, xs, init);
      AddAbsorbed(BuildAll(params, xs), BuildAll(params, init), last);
    }
  }

  // ----- merging the parts as a tree ----------------------------------------------------------------------

  ghost predicate SameParams(parts: seq<Build>, params: ParamBits) {
    forall i :: 0 <= i < |parts| ==> parts[i].params == params
  }

  /** The parts absorbed one after another, left to right. */
  function AbsorbAll(params: ParamBits, parts: seq<Build>): Build {
    if parts == [] then Empty(params) else Absorbed(AbsorbAll(params, parts[..|parts| - 1]), parts[|parts| - 1])
  }

  lemma AbsorbAllSnoc(params: ParamBits, parts: seq<Build>, last: Build)
    ensures AbsorbAll(params, parts + [last]) == Absorbed(AbsorbAll(params, parts), last)
  {
    assert (parts + [last])[..|parts|] == parts;
  }

  lemma AbsorbAllOne(part: Build)
    ensures AbsorbAll(part.params, [part]) == part
  {
    hide Absorbed;
    AbsorbAllSnoc(part.params, [], part);
    assert [] + [part] == [part];
    AbsorbIdentity(part);
  }

  /** Merges adjacent parts pairwise, round after round, until one is left. */
  method MergeTree(given: seq<Build>, params: ParamBits) returns (whole: Build)
    requires SameParams(given, params)
    ensures whole == AbsorbAll(params, given)
  {
    hide Absorbed;
    var parts := given;
    while |parts| > 1
      invariant SameParams(parts, params)
      invariant AbsorbAll(params, parts) == AbsorbAll(params, given)
    {
      parts := MergeRound(parts, params);
    }
    if |parts| == 1 {
      whole := parts[0];
      assert parts == [whole];
      AbsorbAllOne(whole);
    } else {
      whole := Empty(params);
    }
  }

  /** One round: each pair becomes one part, an odd part rides along untouched. */
  method MergeRound(parts: seq<Build>, params: ParamBits) returns (merged: seq<Build>)
    requires SameParams(parts, params) && |parts| > 1
    ensures SameParams(merged, params) && |merged| < |parts|
    ensures AbsorbAll(params, merged) == AbsorbAll(params, parts)
  {
    hide AbsorbAll;
    merged := [];
    var i := 0;
    assert parts[..0] == [];
    while i + 1 < |parts|
      invariant 0 <= i <= |parts| && 2 * |merged| == i
      invariant SameParams(merged, params)
      invariant AbsorbAll(params, merged) == AbsorbAll(params, parts[..i])
    {
      PairAbsorbed(params, merged, parts[..i], parts[i], parts[i + 1]);
      assert parts[..i] + [parts[i]] + [parts[i + 1]] == parts[..i + 2];
      merged := merged + [Absorbed(parts[i], parts[i + 1])];
      i := i + 2;
    }
    if i < |parts| {
      AbsorbAllSnoc(params, merged, parts[i]);
      AbsorbAllSnoc(params, parts[..i], parts[i]);
      assert parts[..i] + [parts[i]] == parts[..i + 1];
      merged := merged + [parts[i]];
      i := i + 1;
    }
    assert parts[..i] == parts;
  }

  lemma PairAbsorbed(params: ParamBits, merged: seq<Build>, done: seq<Build>, left: Build, right: Build)
    requires AbsorbAll(params, merged) == AbsorbAll(params, done)
    ensures AbsorbAll(params, merged + [Absorbed(left, right)]) == AbsorbAll(params, done + [left] + [right])
  {
    hide Absorbed, AbsorbAll;
    AbsorbAllSnoc(params, merged, Absorbed(left, right));
    AbsorbAllSnoc(params, done, left);
    AbsorbAllSnoc(params, done + [left], right);
    AbsorbAssociative(AbsorbAll(params, done), left, right);
  }

  function Concat(chunks: seq<seq<Document>>): seq<Document> {
    if chunks == [] then [] else Concat(chunks[..|chunks| - 1]) + chunks[|chunks| - 1]
  }

  /** Each chunk of a corpus built on its own. */
  function BuildChunks(params: ParamBits, chunks: seq<seq<Document>>): (r: seq<Build>)
    requires forall d :: d in Concat(chunks) ==> Fits(d)
    ensures |r| == |chunks|
  {
    if chunks == [] then []
    else BuildChunks(params, chunks[..|chunks| - 1]) + [BuildAll(params, chunks[|chunks| - 1])]
  }

  /** However a corpus is cut into contiguous chunks, building them apart and absorbing gives the one-pass index. */
  lemma {:induction false} ParallelBuildIsSerial(params: ParamBits, chunks: seq<seq<Document>>)
    requires forall d :: d in Concat(chunks) ==> Fits(d)
    ensures SameParams(BuildChunks(params, chunks), params)
    ensures AbsorbAll(params, BuildChunks(params, chunks)) == BuildAll(params, Concat(chunks))
    decreases |chunks|
  {
    hide Absorbed, Fits, Dense;
    if chunks != [] {
      var init, last := chunks[..|chunks| - 1], chunks[|chunks| - 1];
      ParallelBuildIsSerial(params, init);
      BuildConcat(params, Concat(init), last);
      BuildAllIsDense(params, last);
      AbsorbAllSnoc(params, BuildChunks(params, init), BuildAll(params, last));
    }
  }

  // ----- the builder itself ----------------------------------------------------------------------------------

  class SegmentBuilder {
    var terms: TermMap
    var docs: seq<StoredDoc>
    const params: ParamBits

    function Contents(): Build
      reads this
    {
      Build(terms, docs, params)
    }

    constructor WithParams(params: ParamBits)
      ensures Contents() == Empty(params)
    {
      this.terms := map[];
      this.docs := [];
      this.params := params;
    }

    method PushTokens(id: nat, field: Field, tokens: seq<Term>)
      requires |tokens| < U32_LIMIT
      modifies this`terms
      ensures terms == PushedAll(old(terms), id, field, tokens, |tokens|)
    {
      hide Pushed;
      for i := 0 to |tokens|
        invariant terms == PushedAll(old(terms), id, field, tokens, i)
      {
        terms := Pushed(terms, id, field, tokens[i], i);
      }
    }

    /** Adds a document and returns the id it was given: dense, in insertion order. */
    method Add(doc: Document) returns (id: nat)
      requires Fits(doc) && |docs| < U32_LIMIT
      modifies this
      ensures id == old(|docs|)
      ensures Contents() == AddDocument(old(Contents()), doc)
    {
      hide PushedAll;
      id := |docs|;
      PushTokens(id, Title, doc.title);
      PushTokens(id, Body, doc.body);
      // Every anchor continues the numbering where the one before it stopped.
      var tokens: seq<Term> := [];
      for i := 0 to |doc.anchors|
        invariant tokens == Flat(doc.anchors[..i])
      {
        assert doc.anchors[..i + 1][..i] == doc.anchors[..i];
        tokens := tokens + doc.anchors[i];
      }
      assert doc.anchors[..|doc.anchors|] == doc.anchors;
      PushTokens(id, Anchor, tokens);
      docs := docs + [StoredDoc(doc.uri, |doc.title| + |doc.body| + |tokens|, 0)];
    }

    /** Sets a document's rank; an id that was never given out changes nothing. */
    method SetRank(id: nat, rank: u32)
      modifies this`docs
      ensures |docs| == |old(docs)|
      ensures forall i :: 0 <= i < |docs| ==>
        docs[i] == if i == id then old(docs)[i].(rank := rank) else old(docs)[i]
    {
      if id < |docs| {
        docs := docs[id := docs[id].(rank := rank)];
      }
    }

    /** Absorbs another builder, as if its documents had been added after these. */
    method Absorb(other: SegmentBuilder)
      requires other != this && params == other.params
      modifies this
      ensures Contents() == Absorbed(old(Contents()), old(other.Contents()))
    {
      hide AbsorbedTerms;
      terms := MergeInto(terms, other.terms, |docs|);
      docs := docs + other.docs;
    }
  }

  /** Inserts every posting of every term of `right`, ids shifted. */
  method MergeInto(left: TermMap, right: TermMap, shift: nat) returns (terms: TermMap)
    ensures terms == AbsorbedTerms(left, right, shift)
  {
    hide Shifted, AbsorbedTerms, Entry;
    terms := left;
    var rest := right.Keys;
    AbsorbNothing(left, right, shift);
    while rest != {}
      invariant rest <= right.Keys
      invariant terms == AbsorbedTerms(left, right - rest, shift)
      decreases |rest|
    {
      var t :| t in rest;
      AbsorbOneMore(left, right, rest, t, shift);
      var entry := ShiftInto(Entry(terms, t), right[t], shift);
      terms := terms[t := entry];
      rest := rest - {t};
    }
    NothingTaken(right);
  }

  lemma NothingTaken(terms: TermMap)
    ensures terms - {} == terms
  {
  }

  lemma AbsorbNothing(left: TermMap, right: TermMap, shift: nat)
    ensures AbsorbedTerms(left, right - right.Keys, shift) == left
  {
    hide Shifted;
    assert right - right.Keys == map[];
    forall t | t in left ensures Entry(AbsorbedTerms(left, map[], shift), t) == Entry(left, t) {
      IdentityAt(left, shift, t);
    }
    SameTerms(AbsorbedTerms(left, map[], shift), left);
  }

  /** Absorbing one more term of `right`, the terms in `rest` not being done yet. */
  lemma AbsorbOneMore(left: TermMap, right: TermMap, rest: set<Term>, t: Term, shift: nat)
    requires rest <= right.Keys && t in rest
    ensures var done := AbsorbedTerms(left, right - rest, shift);
      AbsorbedTerms(left, right - (rest - {t}), shift) == done[t := Entry(done, t) + Shifted(right[t], shift)]
  {
    hide Shifted, AbsorbedTerms;
    var before, after := right - rest, right - (rest - {t});
    var done := AbsorbedTerms(left, before, shift);
    var next := done[t := Entry(done, t) + Shifted(right[t], shift)];
    forall u | true ensures Entry(AbsorbedTerms(left, after, shift), u) == Entry(next, u) {
      EntryAbsorbed(left, after, shift, u);
      EntryAbsorbed(left, before, shift, u);
      ShiftOfNothing(shift);
      assert Entry(left, t) + map[] == Entry(left, t);
    }
    SameTerms(AbsorbedTerms(left, after, shift), next);
  }

  lemma ShiftOneMore(docs: DocMap, rest: set<nat>, id: nat, shift: nat)
    requires rest <= docs.Keys && id in rest
    ensures Shifted(docs - (rest - {id}), shift) == Shifted(docs - rest, shift)[id + shift := docs[id]]
  {
    hide Shifted;
    UpdateShifted(docs - rest, id, docs[id], shift);
    assert (docs - rest)[id := docs[id]] == docs - (rest - {id});
  }

  /** Inserts every posting of `docs` into `entry`, ids shifted. */
  method ShiftInto(entry: DocMap, docs: DocMap, shift: nat) returns (r: DocMap)
    ensures r == entry + Shifted(docs, shift)
  {
    hide Shifted;
    r := entry;
    var rest := docs.Keys;
    assert docs - docs.Keys == map[];
    ShiftOfNothing(shift);
    while rest != {}
      invariant rest <= docs.Keys
      invariant r == entry + Shifted(docs - rest, shift)
      decreases |rest|
    {
      var id :| id in rest;
      ShiftOneMore(docs, rest, id, shift);
      UpdateUnion(entry, Shifted(docs - rest, shift), id + shift, docs[id]);
      r := r[id + shift := docs[id]];
      rest := rest - {id};
    }
    assert docs - {} == docs;
  }
}
