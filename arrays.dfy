/** The JavaScript array operations the server relies on: `indexOf`, `splice(i, 1)` and underscore's `_.without`. */
module JsArray {

  /** No element occurs twice. */
  predicate Distinct<T(==)>(xs: seq<T>) {
    forall i, j :: 0 <= i < j < |xs| ==> xs[i] != xs[j]
  }

  /** `xs.indexOf(x)`: the first index holding `x`, or -1. */
  function IndexOf<T(==)>(xs: seq<T>, x: T): (k: int)
    ensures -1 <= k < |xs|
    ensures k == -1 <==> x !in xs
    ensures k >= 0 ==> xs[k] == x && x !in xs[..k]
  {
    if xs == [] then -1
    else if xs[0] == x then 0
    else
      var k := IndexOf(xs[1..], x);
      assert xs[1..][..if k < 0 then 0 else k] == xs[1..if k < 0 then 1 else k + 1];
      if k == -1 then -1 else k + 1
  }

  /**
   * The array left by `xs.splice(start, 1)`: a negative `start` counts from
   * the end, and a start past the end removes nothing.
   */
  function SpliceOne<T>(xs: seq<T>, start: int): (r: seq<T>)
    ensures |xs| > 0 && -|xs| <= start < |xs| ==> |r| == |xs| - 1
    ensures 0 <= start < |xs| ==> r == xs[..start] + xs[start + 1..]
    ensures -|xs| <= start < 0 ==> r == xs[..|xs| + start] + xs[|xs| + start + 1..]
    ensures 0 < |xs| && start < -|xs| ==> r == xs[1..]
    ensures start >= |xs| ==> r == xs
  {
    var s := if start < 0 then (if |xs| + start < 0 then 0 else |xs| + start)
             else (if start > |xs| then |xs| else start);
    if s < |xs| then xs[..s] + xs[s + 1..] else xs
  }

  /** Removing position `k` takes one copy of `xs[k]` out of the multiset. */
  lemma RemoveAtMultiset<T>(xs: seq<T>, k: nat)
    requires k < |xs|
    ensures multiset(xs[..k] + xs[k + 1..]) == multiset(xs) - multiset{xs[k]}
  {
    assert xs == xs[..k] + [xs[k]] + xs[k + 1..];
    assert multiset(xs) == multiset(xs[..k]) + multiset{xs[k]} + multiset(xs[k + 1..]);
  }

  /** Removing position `k` from a list without repeats leaves no copy of `xs[k]` and no repeats. */
  lemma RemoveAtDistinct<T>(xs: seq<T>, k: nat)
    requires k < |xs| && Distinct(xs)
    ensures xs[k] !in xs[..k] + xs[k + 1..] && Distinct(xs[..k] + xs[k + 1..])
  {
    var r := xs[..k] + xs[k + 1..];
    forall i | 0 <= i < |r| ensures r[i] != xs[k] {
      if i < k { assert r[i] == xs[i]; } else { assert r[i] == xs[i + 1]; }
    }
    forall i, j | 0 <= i < j < |r| ensures r[i] != r[j] {
      var i' := if i < k then i else i + 1;
      var j' := if j < k then j else j + 1;
      assert r[i] == xs[i'] && r[j] == xs[j'];
    }
  }

  /** `xs.splice(xs.indexOf(x), 1)` when `x` is present removes exactly that occurrence. */
  lemma SpliceFound<T>(xs: seq<T>, x: T)
    requires x in xs
    ensures multiset(SpliceOne(xs, IndexOf(xs, x))) == multiset(xs) - multiset{x}
    ensures Distinct(xs) ==> x !in SpliceOne(xs, IndexOf(xs, x)) && Distinct(SpliceOne(xs, IndexOf(xs, x)))
  {
    var k := IndexOf(xs, x);
    assert SpliceOne(xs, k) == xs[..k] + xs[k + 1..];
    RemoveAtMultiset(xs, k);
    if Distinct(xs) {
      RemoveAtDistinct(xs, k);
    }
  }

  /** When `x` is absent, `indexOf` gives -1 and `splice(-1, 1)` removes the LAST element. */
  lemma SpliceMissing<T>(xs: seq<T>, x: T)
    requires x !in xs && xs != []
    ensures SpliceOne(xs, IndexOf(xs, x)) == xs[..|xs| - 1]
  {
  }

  /** `_.without(xs, x)`: `xs` with every occurrence of `x` removed, order kept. */
  function Without<T(==)>(xs: seq<T>, x: T): (r: seq<T>)
    ensures x !in r
    ensures forall i :: 0 <= i < |r| ==> r[i] in xs
    ensures forall i :: 0 <= i < |xs| && xs[i] != x ==> xs[i] in r
    ensures |r| <= |xs|
    ensures x !in xs ==> r == xs
  {
    if xs == [] then []
    else if xs[0] == x then Without(xs[1..], x)
    else [xs[0]] + Without(xs[1..], x)
  }

  /** One step of `_.without`: the head is kept unless it is `x`. */
  lemma WithoutCons<T>(h: T, t: seq<T>, x: T)
    ensures Without([h] + t, x) == (if h == x then [] else [h]) + Without(t, x)
  {
    var l := [h] + t;
    assert l[0] == h && l[1..] == t;
  }

  /**
   * `_.without` keeps the order of what it keeps: it works piece by piece
   * over a concatenation (and `WithoutOne` says what it does to one element).
   */
  lemma {:induction false} WithoutConcat<T>(xs: seq<T>, ys: seq<T>, x: T)
    ensures Without(xs + ys, x) == Without(xs, x) + Without(ys, x)
  {
    if xs == [] {
      assert xs + ys == ys;
    } else {
      var h, t := xs[0], xs[1..];
      var w: seq<T> := if h == x then [] else [h];
      assert xs == [h] + t;
      assert xs + ys == [h] + (t + ys);
      WithoutCons(h, t + ys, x);
      WithoutCons(h, t, x);
      WithoutConcat(t, ys, x);
      ConcatAssoc(w, Without(t, x), Without(ys, x));
    }
  }

  lemma ConcatAssoc<T>(a: seq<T>, b: seq<T>, c: seq<T>)
    ensures a + (b + c) == (a + b) + c
  {
  }

  /** A single element survives `_.without` exactly when it is not `x`. */
  lemma WithoutOne<T>(y: T, x: T)
    ensures Without([y], x) == if y == x then [] else [y]
  {
    WithoutCons(y, [], x);
    assert [y] + [] == [y];
  }
}
