/** Iterating the keys of a sorted map: a finite set listed in ascending order. */
module Ordered {

  ghost predicate TotalOrder<K(!new)>(le: (K, K) -> bool) {
    && (forall a, b :: le(a, b) || le(b, a))
    && (forall a, b :: le(a, b) && le(b, a) ==> a == b)
    && (forall a, b, c :: le(a, b) && le(b, c) ==> le(a, c))
  }

  ghost predicate IsGreatest<K>(s: set<K>, le: (K, K) -> bool, x: K) {
    x in s && forall y :: y in s ==> le(y, x)
  }

  lemma {:induction false} GreatestExists<K(!new)>(s: set<K>, le: (K, K) -> bool)
    requires TotalOrder(le) && s != {}
    ensures exists x :: IsGreatest(s, le, x)
    decreases |s|
  {
    var x :| x in s;
    var rest := s - {x};
    if rest == {} {
      assert s == {x};
      assert IsGreatest(s, le, x);
    } else {
      GreatestExists(rest, le);
      var y :| IsGreatest(rest, le, y);
      assert s == rest + {x};
      assert if le(x, y) then IsGreatest(s, le, y) else IsGreatest(s, le, x);
    }
  }

  /** The greatest element; there is only one. */
  function Greatest<K(!new, ==)>(s: set<K>, le: (K, K) -> bool): (x: K)
    requires TotalOrder(le) && s != {}
    ensures IsGreatest(s, le, x)
  {
    GreatestExists(s, le);
    assert exists x :: x in s && forall y :: y in s ==> le(y, x) by {
      var x :| IsGreatest(s, le, x);
    }
    var x :| x in s && forall y :: y in s ==> le(y, x);
    x
  }

  /** The elements of a set in ascending order. */
  function Keys<K(!new, ==)>(s: set<K>, le: (K, K) -> bool): (r: seq<K>)
    requires TotalOrder(le)
    decreases |s|
  {
    if s == {} then []
    else
      var x := Greatest(s, le);
      Keys(s - {x}, le) + [x]
  }

  ghost predicate StrictlyAscending<K>(r: seq<K>, le: (K, K) -> bool) {
    forall i, j :: 0 <= i < j < |r| ==> le(r[i], r[j]) && r[i] != r[j]
  }

  /** Every element once, in order. */
  lemma {:induction false} KeysAreSorted<K(!new)>(s: set<K>, le: (K, K) -> bool)
    requires TotalOrder(le)
    ensures forall k :: k in Keys(s, le) <==> k in s
    ensures StrictlyAscending(Keys(s, le), le)
    ensures |Keys(s, le)| == |s|
    decreases |s|
  {
    if s != {} {
      var x := Greatest(s, le);
      KeysAreSorted(s - {x}, le);
      var init := Keys(s - {x}, le);
      forall i | 0 <= i < |init| ensures le(init[i], x) && init[i] != x {
        assert init[i] in s - {x};
      }
    }
  }

  /** A strictly ascending list of a set's elements is the list of its keys. */
  lemma {:induction false} SortedIsKeys<K(!new)>(r: seq<K>, s: set<K>, le: (K, K) -> bool)
    requires TotalOrder(le) && StrictlyAscending(r, le)
    requires forall k :: k in r <==> k in s
    ensures r == Keys(s, le)
    decreases |r|
  {
    if r == [] {
      assert s == {};
    } else {
      var init, last := r[..|r| - 1], r[|r| - 1];
      assert last in r;
      assert IsGreatest(s, le, last) by {
        forall y | y in s ensures le(y, last) {
          assert y in r;
        }
      }
      assert Greatest(s, le) == last;
      forall k | k in s - {last} ensures k in init {
        assert k in r;
      }
      assert forall k :: k in init ==> k in r;
      SortedIsKeys(init, s - {last}, le);
    }
  }

  lemma {:induction false} KeysOnce<K(!new)>(s: set<K>, le: (K, K) -> bool)
    requires TotalOrder(le)
    ensures multiset(Keys(s, le)) == multiset(s)
    decreases |s|
  {
    if s != {} {
      var x := Greatest(s, le);
      KeysOnce(s - {x}, le);
      assert s == (s - {x}) + {x};
    }
  }
}
