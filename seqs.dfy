/** Facts about sequences that several loops need. */
module Seqs {
  import Wrappers
  /** Concatenation is associative; loops that append to an accumulated prefix use it. */
  lemma AppendAssoc<T>(a: seq<T>, b: seq<T>, c: seq<T>)
    ensures a + (b + c) == (a + b) + c
  {
  }

  /** A prefix one longer is the prefix followed by the next element. */
  lemma TakeSnoc<T>(xs: seq<T>, j: nat)
    requires j < |xs|
    ensures xs[..j + 1] == xs[..j] + [xs[j]]
  {
  }

  /** Cutting a longer prefix back gives the shorter prefix. */
  lemma TakeTake<T>(xs: seq<T>, j: nat)
    requires j < |xs|
    ensures xs[..j + 1][..j] == xs[..j]
  {
  }

  /** The position of the first element at or after `i` that satisfies `p`. */
  function FirstFrom<T>(xs: seq<T>, p: T -> bool, i: nat): (r: Wrappers.Option<nat>)
    requires i <= |xs|
    ensures r.Some? ==> i <= r.value < |xs| && p(xs[r.value]) && forall k :: i <= k < r.value ==> !p(xs[k])
    ensures r.None? ==> forall k :: i <= k < |xs| ==> !p(xs[k])
    decreases |xs| - i
  {
    if i == |xs| then Wrappers.None
    else if p(xs[i]) then Wrappers.Some(i)
    else FirstFrom(xs, p, i + 1)
  }

  /** The state a sequence of steps `f` reaches from `t`, one element at a time in order. */
  function FoldLeft<A, B>(t: A, xs: seq<B>, f: (A, B) -> A): A
  {
    if xs == [] then t else f(FoldLeft(t, xs[..|xs| - 1], f), xs[|xs| - 1])
  }

  /** One more element is one more step. */
  lemma FoldLeftSnoc<A, B>(t: A, xs: seq<B>, x: B, f: (A, B) -> A)
    ensures FoldLeft(t, xs + [x], f) == f(FoldLeft(t, xs, f), x)
  {
    assert (xs + [x])[..|xs|] == xs;
  }

  /** A loop that applies `f` to each element in turn. */
  method FoldLoop<A, B>(t0: A, xs: seq<B>, f: (A, B) -> A) returns (t: A)
    ensures t == FoldLeft(t0, xs, f)
  {
    t := t0;
    for i := 0 to |xs|
      invariant t == FoldLeft(t0, xs[..i], f)
    {
      FoldLeftSnoc(t0, xs[..i], xs[i], f);
      TakeSnoc(xs, i);
      t := f(t, xs[i]);
    }
    assert xs[..|xs|] == xs;
  }

  /** Folding a concatenation folds the second part from where the first ends. */
  lemma {:induction false} FoldLeftAppend<A, B>(t: A, xs: seq<B>, ys: seq<B>, f: (A, B) -> A)
    ensures FoldLeft(t, xs + ys, f) == FoldLeft(FoldLeft(t, xs, f), ys, f)
  {
    if ys == [] {
      assert xs + ys == xs;
    } else {
      var init := ys[..|ys| - 1];
      assert xs + ys == (xs + init) + [ys[|ys| - 1]];
      assert ys == init + [ys[|ys| - 1]];
      FoldLeftSnoc(t, xs + init, ys[|ys| - 1], f);
      FoldLeftSnoc(FoldLeft(t, xs, f), init, ys[|ys| - 1], f);
      FoldLeftAppend(t, xs, init, f);
    }
  }

  /** Every element through `g`, in order. */
  function Map<B, C>(xs: seq<B>, g: B -> C): (r: seq<C>)
    ensures |r| == |xs|
  {
    if xs == [] then [] else Map(xs[..|xs| - 1], g) + [g(xs[|xs| - 1])]
  }

  /** Each element of the mapped sequence is its source element through `g`. */
  lemma {:induction false} MapAt<B, C>(xs: seq<B>, g: B -> C)
    ensures forall k :: 0 <= k < |xs| ==> Map(xs, g)[k] == g(xs[k])
  {
    if xs != [] {
      var init := xs[..|xs| - 1];
      MapAt(init, g);
      assert forall k :: 0 <= k < |init| ==> init[k] == xs[k];
    }
  }

  /** Folding with a step that first maps its element is folding the mapped sequence. */
  lemma {:induction false} FoldLeftMap<A, B, C>(t: A, xs: seq<B>, g: B -> C, f: (A, C) -> A, h: (A, B) -> A)
    requires forall a, b :: h(a, b) == f(a, g(b))
    ensures FoldLeft(t, xs, h) == FoldLeft(t, Map(xs, g), f)
  {
    if xs != [] {
      var init, x := xs[..|xs| - 1], xs[|xs| - 1];
      FoldLeftMap(t, init, g, f, h);
      FoldLeftSnoc(t, Map(init, g), g(x), f);
    }
  }

  /** The last `n` elements of `s`, all of it when it is shorter. */
  function LastN<T>(s: seq<T>, n: nat): (r: seq<T>)
    ensures |r| == if |s| <= n then |s| else n
    ensures r == s[|s| - |r|..]
  {
    if |s| <= n then s else s[|s| - n..]
  }

  /** The values that are there, in order. */
  function Somes<T(!new)>(os: seq<Wrappers.Option<T>>): (r: seq<T>)
    ensures |r| <= |os|
    ensures forall x :: x in r <==> Wrappers.Some(x) in os
  {
    if os == [] then []
    else (if os[0].Some? then [os[0].value] else []) + Somes(os[1..])
  }

  /** No element occurs at two positions. */
  predicate Distinct<T(==)>(s: seq<T>)
  {
    forall i, j :: 0 <= i < j < |s| ==> s[i] != s[j]
  }

  /** Values found at distinct positions stay distinct once the gaps are dropped. */
  lemma {:induction false} SomesDistinct<T(!new)>(os: seq<Wrappers.Option<T>>)
    requires forall i, j :: 0 <= i < j < |os| && os[i].Some? ==> os[i] != os[j]
    ensures Distinct(Somes(os))
  {
    if os != [] {
      var tail := os[1..];
      assert forall i, j :: 0 <= i < j < |tail| && tail[i].Some? ==> tail[i] != tail[j] by {
        forall i, j | 0 <= i < j < |tail| && tail[i].Some? ensures tail[i] != tail[j] {
          assert tail[i] == os[i + 1] && tail[j] == os[j + 1];
        }
      }
      SomesDistinct(tail);
      if os[0].Some? {
        assert Wrappers.Some(os[0].value) !in tail by {
          forall j | 0 <= j < |tail| ensures tail[j] != os[0] {
            assert tail[j] == os[j + 1];
          }
        }
      }
    }
  }
}
