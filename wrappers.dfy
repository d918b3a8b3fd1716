/** Option and Result, used for `undefined`, `null` returns and thrown errors. */
module Wrappers {
  datatype Option<T> = None | Some(value: T)
  {
    function GetOr(default: T): T
    {
      match this
      case None => default
      case Some(v) => v
    }
  }

  datatype Result<T, E> = Ok(value: T) | Err(error: E)
  {
    predicate IsFailure() { Err? }
  }

  /** `xs.map(f)` where `f` may throw: the first error ends the map. */
  function MapResult<A, B, E>(f: A -> Result<B, E>, xs: seq<A>): (r: Result<seq<B>, E>)
    ensures r.Ok? <==> forall k :: 0 <= k < |xs| ==> f(xs[k]).Ok?
    ensures r.Ok? ==> |r.value| == |xs| && forall k :: 0 <= k < |xs| ==> f(xs[k]) == Ok(r.value[k])
  {
    if xs == [] then Ok([])
    else match f(xs[0])
      case Err(e) => Err(e)
      case Ok(y) =>
        match MapResult(f, xs[1..])
        case Err(e) => Err(e)
        case Ok(ys) =>
          assert forall k :: 1 <= k < |xs| ==> f(xs[k]) == Ok(ys[k - 1]) by {
            forall k | 1 <= k < |xs| ensures f(xs[k]) == Ok(ys[k - 1]) {
              assert xs[k] == xs[1..][k - 1];
            }
          }
          Ok([y] + ys)
  }

  /** The error of a failed map is that of the first element `f` fails on. */
  lemma {:induction false} MapResultFirstError<A, B, E>(f: A -> Result<B, E>, xs: seq<A>, i: nat)
    requires i < |xs| && f(xs[i]).Err?
    requires forall k :: 0 <= k < i ==> f(xs[k]).Ok?
    ensures MapResult(f, xs) == Err(f(xs[i]).error)
  {
    if i > 0 {
      assert forall k :: 0 <= k < i - 1 ==> xs[1..][k] == xs[k + 1];
      MapResultFirstError(f, xs[1..], i - 1);
    }
  }

  /** A map in which every element succeeds yields the list of results. */
  lemma MapResultAllOk<A, B, E>(f: A -> Result<B, E>, xs: seq<A>, ys: seq<B>)
    requires |ys| == |xs| && forall k :: 0 <= k < |xs| ==> f(xs[k]) == Ok(ys[k])
    ensures MapResult(f, xs) == Ok(ys)
  {
    var r := MapResult(f, xs);
    assert r.value == ys by {
      forall k | 0 <= k < |xs| ensures r.value[k] == ys[k] {
        assert f(xs[k]) == Ok(r.value[k]);
      }
    }
  }

  /** A loop that pushes `f` of each element onto a fresh list; the first error ends it. */
  method MapPush<A, B, E>(f: A -> Result<B, E>, xs: seq<A>) returns (r: Result<seq<B>, E>)
    ensures r == MapResult(f, xs)
  {
    var ys: seq<B> := [];
    for i := 0 to |xs|
      invariant |ys| == i
      invariant forall k :: 0 <= k < i ==> f(xs[k]) == Ok(ys[k])
    {
      var y := f(xs[i]);
      if y.Err? {
        MapResultFirstError(f, xs, i);
        return Err(y.error);
      }
      ys := ys + [y.value];
    }
    MapResultAllOk(f, xs, ys);
    r := Ok(ys);
  }

  /** A loop that replaces each element by `f` of it, in place; the first error ends it. */
  method MapInPlace<A, E>(f: A -> Result<A, E>, xs: seq<A>) returns (r: Result<seq<A>, E>)
    ensures r == MapResult(f, xs)
  {
    var ys := xs;
    var i := 0;
    while i < |ys|
      invariant 0 <= i <= |ys| == |xs|
      invariant forall k :: 0 <= k < i ==> f(xs[k]) == Ok(ys[k])
      invariant ys[i..] == xs[i..]
    {
      var y := f(ys[i]);
      if y.Err? {
        assert ys[i] == xs[i];
        MapResultFirstError(f, xs, i);
        return Err(y.error);
      }
      ys := ys[i := y.value];
      i := i + 1;
    }
    MapResultAllOk(f, xs, ys);
    return Ok(ys);
  }
}
