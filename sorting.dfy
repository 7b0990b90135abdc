/**
  Python's `list.sort(key=..., reverse=True)`: a stable sort into
  non-increasing key order, elements with equal keys keeping their
  original relative order.
 */
module Sorting {
  import opened Numeric

  /** The key of every element, e.g. a list comprehension over one dictionary field. */
  function Values<T>(s: seq<T>, key: T -> real): (r: seq<real>)
    ensures |r| == |s| && forall i :: 0 <= i < |s| ==> r[i] == key(s[i])
  {
    seq(|s|, i requires 0 <= i < |s| => key(s[i]))
  }

  predicate Descending<T>(s: seq<T>, key: T -> real)
  {
    forall i, j :: 0 <= i < j < |s| ==> key(s[i]) >= key(s[j])
  }

  /** Inserts x after every element whose key is at least x's. */
  function Insert<T>(s: seq<T>, x: T, key: T -> real): (r: seq<T>)
    ensures |r| == |s| + 1
  {
    if |s| == 0 then [x]
    else if key(s[|s| - 1]) >= key(x) then s + [x]
    else Insert(s[..|s| - 1], x, key) + [s[|s| - 1]]
  }

  function SortDescending<T>(s: seq<T>, key: T -> real): (r: seq<T>)
    ensures |r| == |s|
  {
    if |s| == 0 then [] else Insert(SortDescending(s[..|s| - 1], key), s[|s| - 1], key)
  }

  lemma {:induction false} InsertPermutes<T>(s: seq<T>, x: T, key: T -> real)
    ensures multiset(Insert(s, x, key)) == multiset(s) + multiset{x}
  {
    if |s| > 0 {
      assert s == s[..|s| - 1] + [s[|s| - 1]];
      if key(s[|s| - 1]) < key(x) {
        InsertPermutes(s[..|s| - 1], x, key);
      }
    }
  }

  lemma {:induction false} InsertFacts<T>(s: seq<T>, x: T, key: T -> real)
    requires Descending(s, key)
    ensures Descending(Insert(s, x, key), key)
    ensures multiset(Insert(s, x, key)) == multiset(s) + multiset{x}
  {
    InsertPermutes(s, x, key);
    if |s| > 0 {
      var s' := s[..|s| - 1];
      var last := s[|s| - 1];
      if key(last) < key(x) {
        InsertFacts(s', x, key);
        var r' := Insert(s', x, key);
        forall i | 0 <= i < |r'| ensures key(r'[i]) >= key(last) {
          assert r'[i] in multiset(r');
          if r'[i] != x {
            assert r'[i] in multiset(s');
            var j :| 0 <= j < |s'| && s'[j] == r'[i];
            assert s[j] == s'[j];
          }
        }
        assert Insert(s, x, key) == r' + [last];
      }
    }
  }

  /** The sort yields a non-increasing arrangement of the same elements. */
  lemma {:induction false} SortDescendingFacts<T>(s: seq<T>, key: T -> real)
    ensures Descending(SortDescending(s, key), key)
    ensures multiset(SortDescending(s, key)) == multiset(s)
  {
    if |s| > 0 {
      var s' := s[..|s| - 1];
      SortDescendingFacts(s', key);
      InsertFacts(SortDescending(s', key), s[|s| - 1], key);
      assert s == s' + [s[|s| - 1]];
    }
  }

  lemma SumRemove(s: seq<real>, k: nat)
    requires k < |s|
    ensures Sum(s) == Sum(s[..k] + s[k + 1..]) + s[k]
  {
    var front, v, back := s[..k], s[k], s[k + 1..];
    assert s == (front + [v]) + back;
    SumConcat(front + [v], back);
    SumAppend(front, v);
    SumConcat(front, back);
  }

  lemma ValuesAppend<T>(s: seq<T>, x: T, key: T -> real)
    ensures Values(s + [x], key) == Values(s, key) + [key(x)]
  {
  }

  lemma ValuesPrefix<T>(s: seq<T>, k: nat, key: T -> real)
    requires k <= |s|
    ensures Values(s[..k], key) == Values(s, key)[..k]
  {
  }

  lemma ValuesRemove<T>(s: seq<T>, k: nat, key: T -> real)
    requires k < |s|
    ensures Values(s[..k] + s[k + 1..], key) == Values(s, key)[..k] + Values(s, key)[k + 1..]
  {
  }

  lemma MultisetRemove<T>(s: seq<T>, k: nat)
    requires k < |s|
    ensures multiset(s[..k] + s[k + 1..]) == multiset(s) - multiset{s[k]}
  {
    assert s == s[..k] + [s[k]] + s[k + 1..];
  }

  /** Reordering a list does not change the sum of a field. */
  lemma {:induction false} SumValuesPermutation<T>(a: seq<T>, b: seq<T>, key: T -> real)
    requires multiset(a) == multiset(b)
    ensures Sum(Values(a, key)) == Sum(Values(b, key))
    decreases |a|
  {
    if |a| == 0 {
      assert |b| == |multiset(b)| == 0;
    } else {
      var a', x := a[..|a| - 1], a[|a| - 1];
      assert a == a' + [x];
      assert x in multiset(b);
      var k :| 0 <= k < |b| && b[k] == x;
      MultisetRemove(b, k);
      var b' := b[..k] + b[k + 1..];
      SumValuesPermutation(a', b', key);
      ValuesAppend(a', x, key);
      SumAppend(Values(a', key), key(x));
      ValuesRemove(b, k, key);
      var vb := Values(b, key);
      SumRemove(vb, k);
      assert Sum(Values(a, key)) == Sum(Values(a', key)) + key(x);
      assert Sum(vb) == Sum(Values(b', key)) + key(x);
    }
  }
}
