/**
  Lists as a functor, a monad and an applicative: map, flatMap and the `ap`
  extension of the teaching snippets. Lists are sequences; `ap` is a flatMap
  over the functions of a map over the list, and its function-major order is
  contrasted with the element-major order of the hand-written flatMap form.
*/
module ListApplicative {

  /** List.map. */
  function ListMap<T, R>(s: seq<T>, f: T -> R): (r: seq<R>)
    ensures |r| == |s|
    ensures forall i :: 0 <= i < |s| ==> r[i] == f(s[i])
  {
    if s == [] then [] else [f(s[0])] + ListMap(s[1..], f)
  }

  /** List.flatMap: the concatenation of `f` applied to every element, in order. */
  function ListFlatMap<T, R>(s: seq<T>, f: T -> seq<R>): (r: seq<R>)
    ensures s == [] ==> r == []
    ensures |s| == 1 ==> r == f(s[0])
    ensures forall i, y :: 0 <= i < |s| && y in f(s[i]) ==> y in r
    ensures forall y :: y in r ==> exists i :: 0 <= i < |s| && y in f(s[i])
  {
    if s == [] then [] else f(s[0]) + ListFlatMap(s[1..], f)
  }

  /** List.ap: every function applied to the whole list, one function after another. */
  function Ap<T, R>(list: seq<T>, fns: seq<T -> R>): (r: seq<R>)
    ensures |r| == |fns| * |list|
  {
    var fm := (fn: T -> R) => ListMap(list, fn);
    UniformFlatMapLength(fns, fm, |list|);
    ListFlatMap(fns, fm)
  }

  /** `ap` is ordered function-major: item `j` of function `i`'s block is `fns[i](list[j])`. */
  lemma ApAt<T, R>(list: seq<T>, fns: seq<T -> R>, i: nat, j: nat)
    requires i < |fns| && j < |list|
    ensures i * |list| + j < |Ap(list, fns)|
    ensures Ap(list, fns)[i * |list| + j] == fns[i](list[j])
  {
    UniformFlatMapAt(fns, (fn: T -> R) => ListMap(list, fn), |list|, i, j);
  }

  /** All the functions applied to one element, in the order of the functions. */
  function ApplyAll<T, R>(fns: seq<T -> R>, x: T): (r: seq<R>)
    ensures |r| == |fns|
    ensures forall i :: 0 <= i < |fns| ==> r[i] == fns[i](x)
  {
    ListMap(fns, (fn: T -> R) => fn(x))
  }

  /** The element-major form `list.flatMap { x -> functions.map { it(x) } }`. */
  function ElementMajor<T, R>(list: seq<T>, fns: seq<T -> R>): (r: seq<R>)
    ensures |r| == |list| * |fns|
  {
    var fm := (x: T) => ApplyAll(fns, x);
    UniformFlatMapLength(list, fm, |fns|);
    ListFlatMap(list, fm)
  }

  /** The element-major form is ordered by element: function `i` at element `j` sits at `j * |fns| + i`. */
  lemma ElementMajorAt<T, R>(list: seq<T>, fns: seq<T -> R>, i: nat, j: nat)
    requires i < |fns| && j < |list|
    ensures j * |fns| + i < |ElementMajor(list, fns)|
    ensures ElementMajor(list, fns)[j * |fns| + i] == fns[i](list[j])
  {
    UniformFlatMapAt(list, (x: T) => ApplyAll(fns, x), |fns|, j, i);
  }

  /**
    flatMap distributes over concatenation: the blocks of `s + t` are those of
    `s` followed by those of `t`. With the empty and one-element cases of
    ListFlatMap's contract this fixes the result: the blocks in input order.
  */
  lemma {:induction false} ListFlatMapAppend<T, R>(s: seq<T>, t: seq<T>, f: T -> seq<R>)
    ensures ListFlatMap(s + t, f) == ListFlatMap(s, f) + ListFlatMap(t, f)
  {
    if s == [] {
      assert s + t == t;
    } else {
      assert (s + t)[1..] == s[1..] + t;
      assert ListFlatMap(s + t, f) == f(s[0]) + ListFlatMap(s[1..] + t, f);
      ListFlatMapAppend(s[1..], t, f);
    }
  }

  /** When `f` yields exactly `k` items for every element, flatMap yields `k` items per element. */
  lemma {:induction false} UniformFlatMapLength<T, R>(s: seq<T>, f: T -> seq<R>, k: nat)
    requires forall i :: 0 <= i < |s| ==> |f(s[i])| == k
    ensures |ListFlatMap(s, f)| == |s| * k
  {
    if s != [] {
      UniformFlatMapLength(s[1..], f, k);
      assert |s| * k == k + (|s| - 1) * k;
    }
  }

  /**
    When `f` yields exactly `k` items for every element, flatMap is a k-wide
    row-major layout: item `j` of the block of element `i` sits at `i * k + j`.
  */
  lemma {:induction false} UniformFlatMapAt<T, R>(s: seq<T>, f: T -> seq<R>, k: nat, i: nat, j: nat)
    requires forall n :: 0 <= n < |s| ==> |f(s[n])| == k
    requires i < |s| && j < k
    ensures i * k + j < |ListFlatMap(s, f)|
    ensures ListFlatMap(s, f)[i * k + j] == f(s[i])[j]
  {
    UniformFlatMapLength(s, f, k);
    var rest := ListFlatMap(s[1..], f);
    assert ListFlatMap(s, f) == f(s[0]) + rest;
    if i == 0 {
      assert i * k + j == j;
    } else {
      UniformFlatMapAt(s[1..], f, k, i - 1, j);
      assert i * k + j == k + ((i - 1) * k + j);
      assert s[i] == s[1..][i - 1];
    }
  }

  /** Adding one element in front of the list adds that element's row to `ap`, as a multiset. */
  lemma {:induction false} ApConsMultiset<T, R>(x: T, rest: seq<T>, fns: seq<T -> R>)
    ensures multiset(Ap([x] + rest, fns)) == multiset(ApplyAll(fns, x)) + multiset(Ap(rest, fns))
  {
    var list := [x] + rest;
    if fns == [] {
      assert Ap(list, fns) == [];
      assert Ap(rest, fns) == [];
      assert ApplyAll(fns, x) == [];
    } else {
      var f, fs := fns[0], fns[1..];
      ApConsMultiset(x, rest, fs);
      assert Ap(list, fns) == ListMap(list, f) + Ap(list, fs);
      assert Ap(rest, fns) == ListMap(rest, f) + Ap(rest, fs);
      assert list[1..] == rest;
      assert ListMap(list, f) == [f(x)] + ListMap(rest, f);
      assert ApplyAll(fns, x) == [f(x)] + ApplyAll(fs, x);
    }
  }

  /** `ap` and the element-major flatMap form hold the same items, counted with multiplicity. */
  lemma {:induction false} ApIsPermutationOfElementMajor<T, R>(list: seq<T>, fns: seq<T -> R>)
    ensures multiset(Ap(list, fns)) == multiset(ElementMajor(list, fns))
  {
    if list == [] {
      assert Ap(list, fns) == [];
      assert ElementMajor(list, fns) == [];
    } else {
      var x, rest := list[0], list[1..];
      assert list == [x] + rest;
      ApConsMultiset(x, rest, fns);
      ApIsPermutationOfElementMajor(rest, fns);
      assert ElementMajor(list, fns) == ApplyAll(fns, x) + ElementMajor(rest, fns);
    }
  }

  // The worked examples in the snippets

  /** `listOf(1,2,3,4).flatMap { listOf(it*2, it*it) }` is 2, 1, 4, 4, 6, 9, 8, 16. */
  lemma WhatIsAMonadExample()
    ensures ListFlatMap([1, 2, 3, 4], (x: int) => [x * 2, x * x]) == [2, 1, 4, 4, 6, 9, 8, 16]
  {
    var f := (x: int) => [x * 2, x * x];
    assert ListFlatMap([4], f) == [8, 16];
    assert ListFlatMap([3, 4], f) == [6, 9] + ListFlatMap([4], f);
    assert ListFlatMap([2, 3, 4], f) == [4, 4] + ListFlatMap([3, 4], f);
    assert ListFlatMap([1, 2, 3, 4], f) == [2, 1] + ListFlatMap([2, 3, 4], f);
  }

  /**
    The two orders differ: over 1..9 with doubling, squaring and cubing, `ap`
    starts 2, 4 (the doubling block first) while the element-major form starts
    2, 1, 1 (all three functions at 1 first).
  */
  lemma AnAppliedApplicativeExample(list: seq<int>, fns: seq<int -> int>)
    requires list == [1, 2, 3, 4, 5, 6, 7, 8, 9]
    requires fns == [(i: int) => i * 2, (i: int) => i * i, (i: int) => i * i * i]
    ensures |Ap(list, fns)| == 27
    ensures Ap(list, fns)[0] == 2 && Ap(list, fns)[1] == 4 && Ap(list, fns)[9] == 1 && Ap(list, fns)[26] == 729
    ensures ElementMajor(list, fns)[0] == 2 && ElementMajor(list, fns)[1] == 1 && ElementMajor(list, fns)[2] == 1
    ensures Ap(list, fns) != ElementMajor(list, fns)
  {
    ApAt(list, fns, 0, 0);
    ApAt(list, fns, 0, 1);
    ApAt(list, fns, 1, 0);
    ApAt(list, fns, 2, 8);
    ElementMajorAt(list, fns, 0, 0);
    ElementMajorAt(list, fns, 1, 0);
    ElementMajorAt(list, fns, 2, 0);
  }
}
