/** Sizes of finite sets that lose or gain a few members. */
module Sizes {

  lemma SubsetSize<T>(a: set<T>, b: set<T>)
    requires a <= b
    ensures |a| <= |b|
  {
    assert b * a == a;
    assert |b - a| + |b * a| == |b|;
  }

  lemma UnionSize<T>(a: set<T>, b: set<T>, c: set<T>)
    requires a <= b + c
    ensures |a| <= |b| + |c|
  {
    SubsetSize(a, b + c);
    assert |b + c| + |b * c| == |b| + |c|;
  }

  /** What `a` gains `b` loses. */
  lemma Trade<T>(a: set<T>, a': set<T>, b: set<T>, b': set<T>)
    requires b' <= b && a' <= a + (b - b')
    ensures |a'| + |b'| <= |a| + |b|
  {
    UnionSize(a', a, b - b');
    assert b * b' == b';
    assert |b - b'| + |b * b'| == |b|;
  }

  function One(b: bool): nat {
    if b then 1 else 0
  }

  lemma WithoutSize<T>(a: set<T>, x: T)
    ensures |a - {x}| == |a| - One(x in a)
  {
    if x in a {
      assert a * {x} == {x};
      assert |a - {x}| + |a * {x}| == |a|;
    } else {
      assert a - {x} == a;
    }
  }

  lemma WithSize<T>(a: set<T>, x: T)
    ensures |a + {x}| == |a| + One(x !in a)
  {
    if x in a {
      assert a + {x} == a;
    }
  }

  lemma SmallSize<T>(a: set<T>)
    requires forall x, y | x in a && y in a :: x == y
    ensures |a| <= 1
  {
    if a != {} {
      var x :| x in a;
      assert a == {x};
    }
  }

  lemma NewKeySize<K, V>(m: map<K, V>, key: K, value: V)
    requires key !in m
    ensures |m[key := value].Keys| == |m.Keys| + 1
  {
    assert m[key := value].Keys == m.Keys + {key};
  }
}
