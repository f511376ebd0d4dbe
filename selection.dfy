// What a JavaScript `filter` keeps, stated without the recursion that
// computes it: the passing elements, each once, in their original order.

module Selection {
  import opened Wrappers

  /** How many elements of `xs` pass `p`. */
  function Count<T>(xs: seq<T>, p: T -> bool): (n: nat)
    ensures n <= |xs|
  {
    if xs == [] then 0 else (if p(xs[0]) then 1 else 0) + Count(xs[1..], p)
  }

  /** Where a passing element at position `j` of `xs` lands in the filtered
    * sequence: the number of passing elements before it. */
  function Rank<T>(xs: seq<T>, p: T -> bool, j: nat): nat
    requires j <= |xs|
  {
    Count(xs[..j], p)
  }

  /** `r` is `xs.filter(p)`: it has one element per passing element of
    * `xs`, every element of `r` passes, and the passing element at `j`
    * sits at index `Rank(xs, p, j)`, so their order is kept. */
  ghost predicate Selects<T>(r: seq<T>, xs: seq<T>, p: T -> bool)
  {
    && |r| == Count(xs, p)
    && (forall k :: 0 <= k < |r| ==> p(r[k]))
    && (forall j {:trigger Rank(xs, p, j)} :: 0 <= j < |xs| && p(xs[j]) ==> Rank(xs, p, j) < |r| && r[Rank(xs, p, j)] == xs[j])
  }

  /** `xs.map(f)` */
  function Map<T, U>(xs: seq<T>, f: T -> U): (r: seq<U>)
    ensures |r| == |xs| && forall k :: 0 <= k < |xs| ==> r[k] == f(xs[k])
  {
    if xs == [] then [] else [f(xs[0])] + Map(xs[1..], f)
  }

  predicate IsSome<T>(o: Option<T>) { o.Some? }

  function Wrap<T>(x: T): Option<T> { Some(x) }

  /** `r` holds the values of the present options of `os`, in order: wrapped
    * back into options, `r` is the filter of `os` on being present. */
  ghost predicate SelectsValues<T>(r: seq<T>, os: seq<Option<T>>)
  {
    Selects(Map(r, Wrap), os, IsSome)
  }

  lemma RankCons<T>(x: T, xs: seq<T>, p: T -> bool, j: nat)
    requires j <= |xs|
    ensures Rank([x] + xs, p, j + 1) == (if p(x) then 1 else 0) + Rank(xs, p, j)
  {
    var ys := [x] + xs;
    assert ys[..j + 1][0] == x;
    assert ys[..j + 1][1..] == xs[..j];
  }

  /** The filter of `[x] + xs` is `x`, when it passes, before the filter of
    * `xs`. */
  lemma SelectsCons<T>(x: T, xs: seq<T>, p: T -> bool, rest: seq<T>)
    requires Selects(rest, xs, p)
    ensures Selects((if p(x) then [x] else []) + rest, [x] + xs, p)
  {
    var ys := [x] + xs;
    var r := (if p(x) then [x] else []) + rest;
    assert ys[1..] == xs;
    assert Rank(ys, p, 0) == 0 by { assert ys[..0] == []; }
    forall j | 0 <= j < |ys| && p(ys[j])
      ensures Rank(ys, p, j) < |r| && r[Rank(ys, p, j)] == ys[j]
    {
      if j > 0 {
        RankCons(x, xs, p, j - 1);
      }
    }
  }

  lemma MapCons<T, U>(x: T, xs: seq<T>, f: T -> U)
    ensures Map([x] + xs, f) == [f(x)] + Map(xs, f)
  {
  }

  /** A loop that pushes the image of `xs[k]` after a head and the images of
    * `xs[..k]` holds the head and the images of `xs[..k + 1]`. */
  lemma MapPush<T, U>(y: U, xs: seq<T>, k: nat, f: T -> U)
    requires k < |xs|
    ensures ([y] + Map(xs[..k], f)) + [f(xs[k])] == [y] + Map(xs[..k + 1], f)
  {
    assert xs[..k + 1] == xs[..k] + [xs[k]];
    MapSnoc(y, xs[..k], xs[k], f);
  }

  /** A head followed by the images of `xs`: where each of them lies. */
  lemma ConsMapAt<T, U>(y: U, xs: seq<T>, f: T -> U)
    ensures |[y] + Map(xs, f)| == |xs| + 1 && ([y] + Map(xs, f))[0] == y
    ensures forall k :: 0 <= k < |xs| ==> ([y] + Map(xs, f))[k + 1] == f(xs[k])
  {
  }

  /** Mapping one more element appends its image, after any head. */
  lemma MapSnoc<T, U>(y: U, xs: seq<T>, x: T, f: T -> U)
    ensures [y] + Map(xs + [x], f) == ([y] + Map(xs, f)) + [f(x)]
  {
    assert forall k :: 0 <= k < |xs| ==> (xs + [x])[k] == xs[k];
    assert Map(xs + [x], f) == Map(xs, f) + [f(x)];
  }

  lemma SelectsValuesCons<T>(o: Option<T>, os: seq<Option<T>>, rest: seq<T>)
    requires SelectsValues(rest, os)
    ensures SelectsValues((if o.Some? then [o.value] else []) + rest, [o] + os)
  {
    SelectsCons(o, os, IsSome, Map(rest, Wrap));
    var r := (if o.Some? then [o.value] else []) + rest;
    assert Map(r, Wrap) == (if IsSome(o) then [o] else []) + Map(rest, Wrap);
  }

  /** Every index below the count is the rank of some passing element. */
  lemma {:induction false} RankOnto<T>(xs: seq<T>, p: T -> bool, k: nat)
    requires k < Count(xs, p)
    ensures exists j :: 0 <= j < |xs| && p(xs[j]) && Rank(xs, p, j) == k
    decreases |xs|
  {
    assert xs == [xs[0]] + xs[1..];
    if p(xs[0]) && k == 0 {
      assert xs[..0] == [];
      assert Rank(xs, p, 0) == 0;
    } else {
      var h := if p(xs[0]) then 1 else 0;
      RankOnto(xs[1..], p, k - h);
      var j :| 0 <= j < |xs[1..]| && p(xs[1..][j]) && Rank(xs[1..], p, j) == k - h;
      RankCons(xs[0], xs[1..], p, j);
      assert p(xs[j + 1]) && Rank(xs, p, j + 1) == k;
    }
  }

  /** `Selects` pins the filtered sequence down completely. */
  lemma SelectsUnique<T>(r1: seq<T>, r2: seq<T>, xs: seq<T>, p: T -> bool)
    requires Selects(r1, xs, p) && Selects(r2, xs, p)
    ensures r1 == r2
  {
    forall k | 0 <= k < |r1|
      ensures r1[k] == r2[k]
    {
      RankOnto(xs, p, k);
    }
  }
}
