/** The library sort the simulation relies on: a stable sort by a strict order. */
module Sorting {

  ghost predicate StrictOrder<T(!new)>(less: (T, T) -> bool) {
    && (forall a, b :: less(a, b) ==> !less(b, a))
    && (forall a, b, c :: less(a, b) && less(b, c) ==> less(a, c))
    && (forall a, b, c :: !less(a, b) && !less(b, c) ==> !less(a, c))
  }

  ghost predicate Transitive<T(!new)>(less: (T, T) -> bool) {
    forall a, b, c :: less(a, b) && less(b, c) ==> less(a, c)
  }

  ghost predicate Sorted<T>(xs: seq<T>, less: (T, T) -> bool) {
    forall i, j :: 0 <= i < j < |xs| ==> !less(xs[j], xs[i])
  }

  /** Places `x` after every element it is not less than. */
  function Insert<T>(xs: seq<T>, x: T, less: (T, T) -> bool): (r: seq<T>)
    ensures |r| == |xs| + 1
    ensures multiset(r) == multiset(xs) + multiset{x}
  {
    if |xs| == 0 || !less(x, xs[|xs| - 1]) then xs + [x]
    else
      assert xs == xs[..|xs| - 1] + [xs[|xs| - 1]];
      Insert(xs[..|xs| - 1], x, less) + [xs[|xs| - 1]]
  }

  function Sort<T>(xs: seq<T>, less: (T, T) -> bool): (r: seq<T>)
    ensures |r| == |xs|
    ensures multiset(r) == multiset(xs)
  {
    if |xs| == 0 then []
    else
      assert xs == xs[..|xs| - 1] + [xs[|xs| - 1]];
      Insert(Sort(xs[..|xs| - 1], less), xs[|xs| - 1], less)
  }

  lemma SameElements<T>(xs: seq<T>, ys: seq<T>)
    requires multiset(xs) == multiset(ys)
    ensures forall x :: x in xs <==> x in ys
  {
    forall x ensures x in xs <==> x in ys {
      assert x in xs <==> x in multiset(xs);
      assert x in ys <==> x in multiset(ys);
    }
  }

  lemma {:induction false} InsertSorts<T(!new)>(xs: seq<T>, x: T, less: (T, T) -> bool)
    requires StrictOrder(less) && Sorted(xs, less)
    ensures Sorted(Insert(xs, x, less), less)
  {
    if |xs| == 0 {
    } else if !less(x, xs[|xs| - 1]) {
      var r := xs + [x];
      forall i, j | 0 <= i < j < |r| ensures !less(r[j], r[i]) {
        if j == |xs| && i < |xs| - 1 {
          assert !less(x, xs[|xs| - 1]) && !less(xs[|xs| - 1], xs[i]);
        }
      }
    } else {
      var init, last := xs[..|xs| - 1], xs[|xs| - 1];
      InsertSorts(init, x, less);
      var head := Insert(init, x, less);
      var r := head + [last];
      forall i, j | 0 <= i < j < |r| ensures !less(r[j], r[i]) {
        if j == |r| - 1 {
          assert multiset(head) == multiset(init + [x]);
          SameElements(head, init + [x]);
          assert r[i] in head;
          assert r[i] in init + [x];
          if r[i] == x {
            assert less(x, last);
          } else {
            var k :| 0 <= k < |init| && init[k] == r[i];
            assert xs[k] == r[i];
          }
        } else {
          assert r[i] == head[i] && r[j] == head[j];
        }
      }
    }
  }

  lemma {:induction false} SortSorts<T(!new)>(xs: seq<T>, less: (T, T) -> bool)
    requires StrictOrder(less)
    ensures Sorted(Sort(xs, less), less)
  {
    if |xs| > 0 {
      SortSorts(xs[..|xs| - 1], less);
      InsertSorts(Sort(xs[..|xs| - 1], less), xs[|xs| - 1], less);
    }
  }

  ghost predicate NoDuplicates<T>(xs: seq<T>) {
    forall i, j :: 0 <= i < j < |xs| ==> xs[i] != xs[j]
  }

  /** Any two elements of `xs` are ordered one way or the other. */
  ghost predicate Separated<T>(xs: seq<T>, less: (T, T) -> bool) {
    forall i, j :: 0 <= i < j < |xs| ==> less(xs[i], xs[j]) || less(xs[j], xs[i])
  }

  lemma HasElement<T>(xs: seq<T>)
    ensures |xs| > 0 ==> exists x :: x in xs
  {
    if |xs| > 0 {
      assert xs[0] in xs;
    }
  }

  /** Two strictly sorted arrangements of the same elements are the same sequence. */
  lemma {:induction false} SortedIsUnique<T(!new)>(xs: seq<T>, ys: seq<T>, less: (T, T) -> bool)
    requires StrictOrder(less)
    requires forall i, j :: 0 <= i < j < |xs| ==> less(xs[i], xs[j])
    requires forall i, j :: 0 <= i < j < |ys| ==> less(ys[i], ys[j])
    requires forall x :: x in xs <==> x in ys
    ensures xs == ys
  {
    if |xs| == 0 {
      HasElement(ys);
    } else {
      var last := xs[|xs| - 1];
      assert last in ys;
      var top := ys[|ys| - 1];
      assert top in xs;
      var i0 :| 0 <= i0 < |xs| && xs[i0] == top;
      var j0 :| 0 <= j0 < |ys| && ys[j0] == last;
      assert i0 == |xs| - 1 || less(top, last);
      assert j0 == |ys| - 1 || less(last, top);
      assert top == last;
      var a, b := xs[..|xs| - 1], ys[..|ys| - 1];
      forall x ensures x in a <==> x in b {
        if x in a {
          var i :| 0 <= i < |a| && a[i] == x;
          assert less(xs[i], last);
          assert x in xs && x in ys && x != top;
          var j :| 0 <= j < |ys| && ys[j] == x;
          assert b[j] == x;
        }
        if x in b {
          var j :| 0 <= j < |b| && b[j] == x;
          assert less(ys[j], top);
          assert x in ys && x in xs && x != last;
          var i :| 0 <= i < |xs| && xs[i] == x;
          assert a[i] == x;
        }
      }
      SortedIsUnique(a, b, less);
      assert xs == a + [last] && ys == b + [top];
    }
  }

  ghost predicate StrictlySorted<T>(xs: seq<T>, less: (T, T) -> bool) {
    forall i, j :: 0 <= i < j < |xs| ==> less(xs[i], xs[j])
  }

  lemma {:induction false} InsertStrictly<T(!new)>(xs: seq<T>, x: T, less: (T, T) -> bool)
    requires Transitive(less) && StrictlySorted(xs, less)
    requires forall i :: 0 <= i < |xs| ==> less(x, xs[i]) || less(xs[i], x)
    ensures StrictlySorted(Insert(xs, x, less), less)
  {
    if |xs| == 0 {
    } else if !less(x, xs[|xs| - 1]) {
      var r := xs + [x];
      forall i, j | 0 <= i < j < |r| ensures less(r[i], r[j]) {
        if j == |xs| {
          assert less(xs[|xs| - 1], x);
          assert i == |xs| - 1 || less(xs[i], xs[|xs| - 1]);
        }
      }
    } else {
      var init, last := xs[..|xs| - 1], xs[|xs| - 1];
      InsertStrictly(init, x, less);
      var head := Insert(init, x, less);
      var r := head + [last];
      forall i, j | 0 <= i < j < |r| ensures less(r[i], r[j]) {
        if j == |r| - 1 {
          SameElements(head, init + [x]);
          assert r[i] in head;
          assert r[i] in init + [x];
          assert r[i] == x || exists k :: 0 <= k < |init| && init[k] == r[i];
        } else {
          assert r[i] == head[i] && r[j] == head[j];
        }
      }
    }
  }

  /** Sorting elements that are pairwise ordered gives a strictly ascending sequence. */
  lemma {:induction false} SortStrictly<T(!new)>(xs: seq<T>, less: (T, T) -> bool)
    requires Transitive(less) && Separated(xs, less)
    ensures StrictlySorted(Sort(xs, less), less)
  {
    if |xs| > 0 {
      var init, last := xs[..|xs| - 1], xs[|xs| - 1];
      SortStrictly(init, less);
      var sorted := Sort(init, less);
      SameElements(sorted, init);
      forall i | 0 <= i < |sorted| ensures less(last, sorted[i]) || less(sorted[i], last) {
        assert sorted[i] in init;
        var k :| 0 <= k < |init| && init[k] == sorted[i];
        assert xs[k] == init[k];
      }
      InsertStrictly(sorted, last, less);
    }
  }

  /** Two arrangements of the same pairwise ordered elements sort to the same sequence. */
  lemma SortIsCanonical<T(!new)>(xs: seq<T>, ys: seq<T>, less: (T, T) -> bool)
    requires StrictOrder(less) && Separated(xs, less) && Separated(ys, less)
    requires forall x :: x in xs <==> x in ys
    ensures Sort(xs, less) == Sort(ys, less)
  {
    SortStrictly(xs, less);
    SortStrictly(ys, less);
    SameElements(Sort(xs, less), xs);
    SameElements(Sort(ys, less), ys);
    SortedIsUnique(Sort(xs, less), Sort(ys, less), less);
  }

  lemma {:induction false} InsertBySameOrder<T(!new)>(xs: seq<T>, x: T, less: (T, T) -> bool, same: (T, T) -> bool)
    requires forall a, b :: less(a, b) == same(a, b)
    ensures Insert(xs, x, less) == Insert(xs, x, same)
  {
    if |xs| > 0 && less(x, xs[|xs| - 1]) {
      InsertBySameOrder(xs[..|xs| - 1], x, less, same);
    }
  }

  /** Sorting depends on the order only through what it decides. */
  lemma {:induction false} SortBySameOrder<T(!new)>(xs: seq<T>, less: (T, T) -> bool, same: (T, T) -> bool)
    requires forall a, b :: less(a, b) == same(a, b)
    ensures Sort(xs, less) == Sort(xs, same)
  {
    if |xs| > 0 {
      SortBySameOrder(xs[..|xs| - 1], less, same);
      InsertBySameOrder(Sort(xs[..|xs| - 1], less), xs[|xs| - 1], less, same);
    }
  }

  lemma ConcatAssociates<T>(xs: seq<T>, ys: seq<T>, zs: seq<T>)
    ensures xs + (ys + zs) == xs + ys + zs
  {
  }

  /** The positions of a list of `n` elements. */
  function Indices(n: nat): (r: seq<nat>)
    ensures |r| == n && forall i :: 0 <= i < n ==> r[i] == i
  {
    seq(n, i => i)
  }
}
