/** Failure-carrying wrappers and small sequence helpers shared by every module of the model. */
module Common {

  datatype Option<+T> = None | Some(value: T)

  /** The Python exception a failing operation raises, with what it names. */
  datatype Error =
    | ValueError(msg: string)
    | KeyError(key: string)
    | IndexError(msg: string)
    | TypeError(msg: string)
    | AttributeError(msg: string)
    | ZeroDivisionError

  datatype Result<+T> = Success(value: T) | Failure(error: Error)

  function Min(a: int, b: int): int { if a <= b then a else b }

  /** Python's `xs[:n]` for a non-negative `n`. */
  function Take<T>(xs: seq<T>, n: nat): (r: seq<T>)
    ensures |r| == Min(|xs|, n)
    ensures r == xs[..|r|]
  {
    if |xs| <= n then xs else xs[..n]
  }

  /** The elements of `xs` at the positions `keep` marks, in their original order. */
  function Select<T>(xs: seq<T>, keep: seq<bool>): (r: seq<T>)
    requires |keep| == |xs|
    ensures |r| <= |xs|
    decreases |xs|
  {
    if |xs| == 0 then []
    else Select(xs[..|xs| - 1], keep[..|xs| - 1]) + (if keep[|xs| - 1] then [xs[|xs| - 1]] else [])
  }

  /** Every element of a selection comes from the selected sequence. */
  lemma {:induction false} SelectMembers<T>(xs: seq<T>, keep: seq<bool>, y: T)
    requires |keep| == |xs|
    requires y in Select(xs, keep)
    ensures exists i :: 0 <= i < |xs| && keep[i] && xs[i] == y
    decreases |xs|
  {
    var n := |xs| - 1;
    if y in Select(xs[..n], keep[..n]) {
      SelectMembers(xs[..n], keep[..n], y);
      var i :| 0 <= i < n && keep[..n][i] && xs[..n][i] == y;
      assert keep[i] && xs[i] == y;
    } else {
      assert keep[n] && xs[n] == y;
    }
  }

  /** The elements of a sequence mapped through a fallible step, stopping at the first
      failure (a loop that raises on a bad element). */
  function MapAll<T, U>(xs: seq<T>, f: T -> Result<U>): (r: Result<seq<U>>)
    ensures r.Success? ==> |r.value| == |xs|
    decreases |xs|
  {
    if |xs| == 0 then Success([])
    else match MapAll(xs[..|xs| - 1], f)
      case Failure(e) => Failure(e)
      case Success(ys) =>
        match f(xs[|xs| - 1])
        case Failure(e) => Failure(e)
        case Success(y) => Success(ys + [y])
  }

  /** Mapping succeeds exactly when every step does, and then maps element by element. */
  lemma {:induction false} MapAllSpec<T, U>(xs: seq<T>, f: T -> Result<U>)
    ensures MapAll(xs, f).Success? <==> forall k :: 0 <= k < |xs| ==> f(xs[k]).Success?
    ensures MapAll(xs, f).Success? ==>
      forall k :: 0 <= k < |xs| ==> MapAll(xs, f).value[k] == f(xs[k]).value
    decreases |xs|
  {
    if |xs| > 0 {
      var init := xs[..|xs| - 1];
      MapAllSpec(init, f);
      assert forall k :: 0 <= k < |init| ==> init[k] == xs[k];
    }
  }

  /** A failed mapping reports the error of the first element whose step fails. */
  lemma {:induction false} MapAllFirstError<T, U>(xs: seq<T>, f: T -> Result<U>)
    requires MapAll(xs, f).Failure?
    ensures exists k :: (0 <= k < |xs| && f(xs[k]).Failure?
      && MapAll(xs, f).error == f(xs[k]).error
      && forall j :: 0 <= j < k ==> f(xs[j]).Success?)
    decreases |xs|
  {
    var init := xs[..|xs| - 1];
    assert forall k :: 0 <= k < |init| ==> init[k] == xs[k];
    if MapAll(init, f).Failure? {
      MapAllFirstError(init, f);
      var k :| 0 <= k < |init| && f(init[k]).Failure?
        && MapAll(init, f).error == f(init[k]).error
        && forall j :: 0 <= j < k ==> f(init[j]).Success?;
      assert f(xs[k]).Failure?;
    } else {
      MapAllSpec(init, f);
      assert f(xs[|xs| - 1]).Failure?;
    }
  }

  /** Once a prefix fails, the whole sequence fails with the same error. */
  lemma MapAllPrefixFails<T, U>(xs: seq<T>, f: T -> Result<U>, n: nat)
    requires n <= |xs| && MapAll(xs[..n], f).Failure?
    ensures MapAll(xs, f) == MapAll(xs[..n], f)
    decreases |xs| - n
  {
    if n < |xs| {
      assert xs[..n + 1][..n] == xs[..n];
      MapAllPrefixFails(xs, f, n + 1);
    } else {
      assert xs[..n] == xs;
    }
  }

  /** Mapping a selection selects from the mapping. */
  lemma {:induction false} MapAllSelect<T, U>(xs: seq<T>, f: T -> Result<U>, keep: seq<bool>)
    requires |keep| == |xs| && MapAll(xs, f).Success?
    ensures MapAll(Select(xs, keep), f) == Success(Select(MapAll(xs, f).value, keep))
    decreases |xs|
  {
    if |xs| > 0 {
      var n := |xs| - 1;
      assert MapAll(xs[..n], f).Success?;
      MapAllSelect(xs[..n], f, keep[..n]);
      var ys := MapAll(xs, f).value;
      assert ys[..n] == MapAll(xs[..n], f).value;
      var s := Select(xs[..n], keep[..n]);
      assert f(xs[n]).Success? && ys == MapAll(xs[..n], f).value + [f(xs[n]).value];
      if keep[n] {
        assert Select(xs, keep) == s + [xs[n]];
        assert (s + [xs[n]])[..|s|] == s;
        assert Select(ys, keep) == Select(ys[..n], keep[..n]) + [ys[n]];
      } else {
        assert Select(xs, keep) == s;
        assert Select(ys, keep) == Select(ys[..n], keep[..n]);
      }
    }
  }

  /** Selecting every position gives the sequence back. */
  lemma {:induction false} SelectAll<T>(xs: seq<T>, keep: seq<bool>)
    requires |keep| == |xs| && forall k :: 0 <= k < |keep| ==> keep[k]
    ensures Select(xs, keep) == xs
    decreases |xs|
  {
    if |xs| > 0 {
      SelectAll(xs[..|xs| - 1], keep[..|xs| - 1]);
    }
  }

  /** One more step of a mapping loop. */
  lemma MapAllStep<T, U>(xs: seq<T>, f: T -> Result<U>, i: nat, ys: seq<U>)
    requires i < |xs| && MapAll(xs[..i], f) == Success(ys) && f(xs[i]).Success?
    ensures MapAll(xs[..i + 1], f) == Success(ys + [f(xs[i]).value])
  {
    assert xs[..i + 1][..i] == xs[..i];
  }

  /** One more step of a selecting loop. */
  lemma SelectStep<T>(xs: seq<T>, keep: seq<bool>, i: nat, b: bool)
    requires i < |xs| && |keep| == i
    ensures Select(xs[..i + 1], keep + [b]) == Select(xs[..i], keep) + (if b then [xs[i]] else [])
  {
    assert xs[..i + 1][..i] == xs[..i];
    assert (keep + [b])[..i] == keep;
  }

  /** Python's `[f(x) for x in xs]`. */
  function MapSeq<T, U>(xs: seq<T>, f: T -> U): (r: seq<U>)
    ensures |r| == |xs|
    ensures forall k :: 0 <= k < |xs| ==> r[k] == f(xs[k])
  {
    seq(|xs|, k requires 0 <= k < |xs| => f(xs[k]))
  }

  lemma MapSeqSnoc<T, U>(xs: seq<T>, x: T, f: T -> U)
    ensures MapSeq(xs + [x], f) == MapSeq(xs, f) + [f(x)]
  {
  }

  /** Empty sequences on either side of a concatenation drop out. */
  lemma EmptyAround<T>(s: seq<T>)
    ensures [] + s + [] == s
  {
  }

  /** Two sequences with the same multiset have the same length and the same members. */
  lemma PermutationMembers<T>(xs: seq<T>, ys: seq<T>)
    requires multiset(xs) == multiset(ys)
    ensures |xs| == |ys|
    ensures forall p :: 0 <= p < |ys| ==> ys[p] in xs
    ensures forall k :: 0 <= k < |xs| ==> xs[k] in ys
  {
    assert |xs| == |multiset(xs)| == |multiset(ys)| == |ys|;
    forall p | 0 <= p < |ys| ensures ys[p] in xs {
      assert ys[p] in multiset(ys);
    }
    forall k | 0 <= k < |xs| ensures xs[k] in ys {
      assert xs[k] in multiset(xs);
    }
  }
}
