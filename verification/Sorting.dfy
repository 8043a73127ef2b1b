/** Python's `sorted(xs, key=...)`: a stable sort, defined by insertion and characterised by what makes
    it unique, namely order by key plus the unchanged order of the elements of each key. */
module Sorting {
  function Insert<T>(x: T, ys: seq<T>, key: T -> real): seq<T> {
    if ys == [] || key(x) <= key(ys[0]) then [x] + ys else [ys[0]] + Insert(x, ys[1..], key)
  }

  function Sort<T>(xs: seq<T>, key: T -> real): seq<T> {
    if xs == [] then [] else Insert(xs[0], Sort(xs[1..], key), key)
  }

  ghost predicate NonDecreasing<T>(xs: seq<T>, key: T -> real) {
    forall i, j | 0 <= i < j < |xs| :: key(xs[i]) <= key(xs[j])
  }

  /** The elements of key `k`, in order. */
  function At<T>(xs: seq<T>, key: T -> real, k: real): seq<T> {
    if xs == [] then [] else if key(xs[0]) == k then [xs[0]] + At(xs[1..], key, k) else At(xs[1..], key, k)
  }

  lemma {:induction false} InsertKeeps<T>(x: T, ys: seq<T>, key: T -> real)
    ensures multiset(Insert(x, ys, key)) == multiset{x} + multiset(ys)
  {
    if ys != [] && key(x) > key(ys[0]) {
      InsertKeeps(x, ys[1..], key);
      assert ys == [ys[0]] + ys[1..];
    }
  }

  lemma Prepend<T>(y: T, zs: seq<T>, key: T -> real)
    requires NonDecreasing(zs, key) && forall z | z in zs :: key(y) <= key(z)
    ensures NonDecreasing([y] + zs, key)
  {
  }

  lemma {:induction false} InsertSorts<T>(x: T, ys: seq<T>, key: T -> real)
    requires NonDecreasing(ys, key)
    ensures NonDecreasing(Insert(x, ys, key), key)
  {
    if ys != [] {
      if key(x) > key(ys[0]) {
        var zs := Insert(x, ys[1..], key);
        InsertSorts(x, ys[1..], key);
        InsertKeeps(x, ys[1..], key);
        forall z | z in zs
          ensures key(ys[0]) <= key(z)
        {
          assert z in multiset(zs);
        }
        Prepend(ys[0], zs, key);
      } else {
        Prepend(x, ys, key);
      }
    }
  }

  lemma {:induction false} InsertAt<T>(x: T, ys: seq<T>, key: T -> real, k: real)
    ensures At(Insert(x, ys, key), key, k) == At([x] + ys, key, k)
  {
    assert ([x] + ys)[1..] == ys;
    if ys != [] && key(x) > key(ys[0]) {
      InsertAt(x, ys[1..], key, k);
      assert ([x] + ys[1..])[1..] == ys[1..];
      assert ([ys[0]] + Insert(x, ys[1..], key))[1..] == Insert(x, ys[1..], key);
    }
  }

  /** The result is a permutation in key order, and equal keys keep their order. */
  lemma {:induction false} SortIsStable<T>(xs: seq<T>, key: T -> real)
    ensures NonDecreasing(Sort(xs, key), key)
    ensures multiset(Sort(xs, key)) == multiset(xs)
    ensures forall k :: At(Sort(xs, key), key, k) == At(xs, key, k)
  {
    if xs != [] {
      var rest := Sort(xs[1..], key);
      SortIsStable(xs[1..], key);
      InsertSorts(xs[0], rest, key);
      InsertKeeps(xs[0], rest, key);
      assert xs == [xs[0]] + xs[1..];
      forall k
        ensures At(Sort(xs, key), key, k) == At(xs, key, k)
      {
        InsertAt(xs[0], rest, key, k);
        assert ([xs[0]] + rest)[1..] == rest;
      }
    }
  }

  lemma {:induction false} AtMembers<T>(xs: seq<T>, key: T -> real, k: real)
    ensures forall x :: x in At(xs, key, k) <==> x in xs && key(x) == k
  {
    if xs != [] {
      AtMembers(xs[1..], key, k);
      assert xs == [xs[0]] + xs[1..];
    }
  }

  lemma TailAt<T>(xs: seq<T>, key: T -> real, k: real)
    requires xs != []
    ensures At(xs[1..], key, k) == if key(xs[0]) == k then At(xs, key, k)[1..] else At(xs, key, k)
  {
  }

  /** Two sequences in key order with the same elements at each key are equal. */
  lemma {:induction false} OrderedUnique<T>(xs: seq<T>, ys: seq<T>, key: T -> real)
    requires NonDecreasing(xs, key) && NonDecreasing(ys, key)
    requires forall k :: At(xs, key, k) == At(ys, key, k)
    ensures xs == ys
  {
    if ys != [] {
      AtMembers(ys, key, key(ys[0]));
      assert ys[0] in At(ys, key, key(ys[0]));
    }
    if xs != [] {
      SameHead(xs, ys, key);
      forall k
        ensures At(xs[1..], key, k) == At(ys[1..], key, k)
      {
        TailAt(xs, key, k);
        TailAt(ys, key, k);
      }
      OrderedUnique(xs[1..], ys[1..], key);
      assert xs == [xs[0]] + xs[1..] && ys == [ys[0]] + ys[1..];
    }
  }

  lemma SameHead<T>(xs: seq<T>, ys: seq<T>, key: T -> real)
    requires NonDecreasing(xs, key) && NonDecreasing(ys, key) && xs != []
    requires forall k :: At(xs, key, k) == At(ys, key, k)
    ensures ys != [] && xs[0] == ys[0]
  {
    AtMembers(xs, key, key(xs[0]));
    AtMembers(ys, key, key(xs[0]));
    assert xs[0] in At(xs, key, key(xs[0]));
    assert xs[0] in At(ys, key, key(xs[0]));
    assert xs[0] in ys;
    AtMembers(xs, key, key(ys[0]));
    AtMembers(ys, key, key(ys[0]));
    assert ys[0] in At(ys, key, key(ys[0]));
    assert ys[0] in At(xs, key, key(ys[0]));
    assert ys[0] in xs;
    assert key(xs[0]) <= key(ys[0]) <= key(xs[0]);
    assert At(xs, key, key(xs[0]))[0] == xs[0];
  }

  /** Stability and order determine the result. */
  lemma SortUnique<T>(xs: seq<T>, ys: seq<T>, key: T -> real)
    requires NonDecreasing(ys, key) && forall k :: At(ys, key, k) == At(xs, key, k)
    ensures ys == Sort(xs, key)
  {
    SortIsStable(xs, key);
    OrderedUnique(ys, Sort(xs, key), key);
  }
}
