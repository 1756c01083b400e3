/**
 A bounded heap of scored documents, represented by its contents best first.

 Best means higher score, then smaller document id; the element a full heap
 gives up is therefore the lowest score and, among those, the largest id.
 */
module TopK {
  import Sorting

  datatype Ranked = Ranked(score: real, doc: nat)

  predicate Better(a: Ranked, b: Ranked) {
    a.score > b.score || (a.score == b.score && a.doc < b.doc)
  }

  ghost predicate Sorted(heap: seq<Ranked>) {
    forall i, j :: 0 <= i < j < |heap| ==> Better(heap[i], heap[j])
  }

  /** `r` put where its rank says, after everything better than it. */
  function Insert(heap: seq<Ranked>, r: Ranked): (out: seq<Ranked>)
    ensures |out| == |heap| + 1
  {
    Sorting.Insert(heap, r, Better)
  }

  /** Pushes, then pops the worst if that made one too many. */
  function Push(heap: seq<Ranked>, r: Ranked, limit: nat): (out: seq<Ranked>)
    ensures |out| == if |heap| + 1 <= limit then |heap| + 1 else |heap|
  {
    var grown := Insert(heap, r);
    if |grown| > limit then grown[..|grown| - 1] else grown
  }

  /** The k-th best score so far; zero until the heap is full. */
  function Threshold(heap: seq<Ranked>, limit: nat): real {
    if |heap| < limit || heap == [] then 0.0 else heap[|heap| - 1].score
  }

  ghost predicate Positive(heap: seq<Ranked>) {
    forall i :: 0 <= i < |heap| ==> heap[i].score > 0.0
  }

  ghost predicate DocsBelow(heap: seq<Ranked>, bound: nat) {
    forall i :: 0 <= i < |heap| ==> heap[i].doc < bound
  }

  lemma {:induction false} InsertSorted(heap: seq<Ranked>, r: Ranked)
    requires Sorted(heap) && DocsBelow(heap, r.doc)
    ensures Sorted(Insert(heap, r))
    ensures forall x :: x in Insert(heap, r) <==> x in heap || x == r
    decreases |heap|
  {
    if heap == [] || Better(heap[|heap| - 1], r) {
      InsertAtEnd(heap, r);
    } else {
      var init, last := heap[..|heap| - 1], heap[|heap| - 1];
      InsertSorted(init, r);
      var out := Insert(init, r);
      forall i | 0 <= i < |out| ensures Better(out[i], last) {
        assert out[i] in out;
        if out[i] != r {
          assert out[i] in init;
        }
      }
      assert heap == init + [last];
    }
  }

  lemma InsertAtEnd(heap: seq<Ranked>, r: Ranked)
    requires Sorted(heap) && (heap == [] || Better(heap[|heap| - 1], r))
    ensures Sorted(heap + [r])
  {
    if heap != [] {
      forall i | 0 <= i < |heap| ensures Better(heap[i], r) {
        assert i < |heap| - 1 ==> Better(heap[i], heap[|heap| - 1]);
      }
    }
  }

  lemma PushSorted(heap: seq<Ranked>, r: Ranked, limit: nat)
    requires Sorted(heap) && DocsBelow(heap, r.doc)
    ensures Sorted(Push(heap, r, limit))
    ensures DocsBelow(Push(heap, r, limit), r.doc + 1)
  {
    InsertSorted(heap, r);
    forall x | x in Push(heap, r, limit) ensures x.doc < r.doc + 1 {
      assert x in Insert(heap, r);
    }
  }

  lemma PushPositive(heap: seq<Ranked>, r: Ranked, limit: nat)
    requires Sorted(heap) && DocsBelow(heap, r.doc)
    requires Positive(heap) && r.score > 0.0
    ensures Positive(Push(heap, r, limit))
  {
    InsertSorted(heap, r);
    forall x | x in Push(heap, r, limit) ensures x.score > 0.0 {
      assert x in Insert(heap, r);
    }
  }

  /** A document that comes later and scores no more than the k-th best changes nothing: `<=` pruning is exact. */
  lemma PushHopeless(heap: seq<Ranked>, r: Ranked, limit: nat)
    requires |heap| == limit && limit >= 1 && DocsBelow(heap, r.doc)
    requires r.score <= Threshold(heap, limit)
    ensures Push(heap, r, limit) == heap
  {
    assert Better(heap[|heap| - 1], r);
  }

  /** The threshold never falls. */
  lemma PushThreshold(heap: seq<Ranked>, r: Ranked, limit: nat)
    requires Sorted(heap) && DocsBelow(heap, r.doc) && |heap| <= limit && limit >= 1
    requires Positive(heap) && r.score > 0.0
    ensures Threshold(heap, limit) <= Threshold(Push(heap, r, limit), limit)
  {
    PushPositive(heap, r, limit);
    if |heap| == limit {
      var last := heap[|heap| - 1];
      if !Better(last, r) {
        var out := Push(heap, r, limit);
        assert out == Insert(heap[..|heap| - 1], r);
        InsertSorted(heap[..|heap| - 1], r);
        assert out[|out| - 1] in out;
        if out[|out| - 1] != r {
          assert out[|out| - 1] in heap[..|heap| - 1];
        }
      }
    }
  }
}
