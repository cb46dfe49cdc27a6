/** The two loop shapes the Rust bindings use over a vector of inputs: a
    conversion that collects one value per element (or, in a variant, at most
    one) and returns the first error with `?`, and a check of every element that returns at the first
    one that fails. */
module Loops {
  import opened Wrappers
  import Seqs

  /** Convert the elements in order, stopping at the first error. `f` also
      receives each element's position, which the error messages quote. The
      recursion peels off the last element, so the prefix, and with it any
      earlier error, is decided first. */
  function TryEach<X, T, E>(items: seq<X>, f: (nat, X) -> Result<T, E>): (r: Result<seq<T>, E>)
    ensures r.Success? ==> |r.value| == |items|
    decreases |items|
  {
    if |items| == 0 then Success([])
    else
      var init :- TryEach(items[..|items| - 1], f);
      var last :- f(|items| - 1, items[|items| - 1]);
      Success(init + [last])
  }

  /** The loop succeeds exactly when every element converts, and then holds
      each element's value at its position. */
  lemma {:induction false} TryEachPositions<X, T, E>(items: seq<X>, f: (nat, X) -> Result<T, E>)
    ensures var r := TryEach(items, f);
      && (r.Success? <==> forall k :: 0 <= k < |items| ==> f(k, items[k]).Success?)
      && (r.Success? ==> forall k :: 0 <= k < |items| ==> r.value[k] == f(k, items[k]).value)
    decreases |items|
  {
    if |items| > 0 {
      var n := |items| - 1;
      var init := items[..n];
      TryEachPositions(init, f);
      assert forall k :: 0 <= k < n ==> init[k] == items[k];
    }
  }

  /** The value a successful loop holds for one element is that element's
      conversion. */
  lemma TryEachAt<X, T, E>(items: seq<X>, f: (nat, X) -> Result<T, E>, k: nat)
    requires k < |items|
    requires TryEach(items, f).Success?
    ensures f(k, items[k]) == Success(TryEach(items, f).value[k])
  {
    TryEachPositions(items, f);
  }

  /** A failing loop returns the error of the first element that fails. */
  lemma {:induction false} TryEachFirstError<X, T, E>(items: seq<X>, f: (nat, X) -> Result<T, E>)
    requires TryEach(items, f).Failure?
    ensures exists k :: (0 <= k < |items|
      && f(k, items[k]) == Failure(TryEach(items, f).error)
      && forall j :: 0 <= j < k ==> f(j, items[j]).Success?)
    decreases |items|
  {
    var n := |items| - 1;
    var init := items[..n];
    assert forall j :: 0 <= j < n ==> init[j] == items[j];
    if TryEach(init, f).Failure? {
      TryEachFirstError(init, f);
      var k :| 0 <= k < n && f(k, init[k]) == Failure(TryEach(init, f).error)
        && forall j :: 0 <= j < k ==> f(j, init[j]).Success?;
      assert f(k, items[k]) == Failure(TryEach(items, f).error);
    } else {
      TryEachPositions(init, f);
      assert f(n, items[n]) == Failure(TryEach(items, f).error);
    }
  }

  /** Convert the elements in order, stopping at the first error, and keep
      the values of the steps that produce one. */
  function CollectEach<X, T, E>(items: seq<X>, f: X -> Result<Option<T>, E>): (r: Result<seq<T>, E>)
    ensures r.Success? ==> |r.value| <= |items|
  {
    if |items| == 0 then Success([])
    else
      var head :- f(items[0]);
      var rest :- CollectEach(items[1..], f);
      Success((if head.Some? then [head.value] else []) + rest)
  }

  /** The collecting loop succeeds exactly when every step does. */
  lemma {:induction false} CollectEachSucceedsIff<X, T, E>(items: seq<X>, f: X -> Result<Option<T>, E>)
    ensures CollectEach(items, f).Success? <==> forall k :: 0 <= k < |items| ==> f(items[k]).Success?
  {
    if |items| > 0 {
      CollectEachSucceedsIff(items[1..], f);
      assert forall k :: 1 <= k < |items| ==> items[k] == items[1..][k - 1];
    }
  }

  /** A failing collecting loop returns the error of its first failing step. */
  lemma {:induction false} CollectEachFirstError<X, T, E>(items: seq<X>, f: X -> Result<Option<T>, E>)
    requires CollectEach(items, f).Failure?
    ensures exists k :: (0 <= k < |items|
      && f(items[k]) == Failure(CollectEach(items, f).error)
      && forall j :: 0 <= j < k ==> f(items[j]).Success?)
  {
    if f(items[0]).Success? {
      var t := items[1..];
      CollectEachFirstError(t, f);
      var k :| 0 <= k < |t| && f(t[k]) == Failure(CollectEach(t, f).error)
        && forall j :: 0 <= j < k ==> f(t[j]).Success?;
      assert forall j :: 1 <= j < k + 1 ==> items[j] == t[j - 1];
      assert f(items[k + 1]) == Failure(CollectEach(items, f).error);
    } else {
      assert f(items[0]) == Failure(CollectEach(items, f).error);
    }
  }

  /** When the steps that produce a value are exactly the elements `keep`
      accepts, a successful collecting loop holds one value per accepted
      element, in order, each that element's step. */
  lemma {:induction false} CollectEachKept<X, T, E>(items: seq<X>, f: X -> Result<Option<T>, E>, keep: X -> bool)
    requires forall k :: 0 <= k < |items| && f(items[k]).Success? ==> (f(items[k]).value.Some? <==> keep(items[k]))
    requires CollectEach(items, f).Success?
    ensures var r := CollectEach(items, f).value;
      var kept := Seqs.Filter(items, keep);
      && |r| == |kept|
      && forall k :: 0 <= k < |kept| ==> f(kept[k]) == Success(Some(r[k]))
  {
    if |items| > 0 {
      var h, t := items[0], items[1..];
      assert forall k :: 1 <= k < |items| ==> items[k] == t[k - 1];
      CollectEachKept(t, f, keep);
      var head := f(h).value;
      var rest := CollectEach(t, f).value;
      var r := CollectEach(items, f).value;
      var kt := Seqs.Filter(t, keep);
      var kept := Seqs.Filter(items, keep);
      if keep(h) {
        assert kept == [h] + kt && r == [head.value] + rest;
        forall k | 1 <= k < |kept|
          ensures f(kept[k]) == Success(Some(r[k]))
        {
          assert kept[k] == kt[k - 1] && r[k] == rest[k - 1];
        }
      } else {
        assert kept == kt && r == rest;
      }
    }
  }

  /** Check every element, in order; the first failing check decides. */
  function CheckEach<X, E>(items: seq<X>, check: X -> Outcome<E>): (r: Outcome<E>)
    ensures r.Pass? <==> forall k :: 0 <= k < |items| ==> check(items[k]).Pass?
  {
    if |items| == 0 then Pass
    else if check(items[0]).Fail? then check(items[0])
    else
      var r := CheckEach(items[1..], check);
      assert forall k :: 1 <= k < |items| ==> items[k] == items[1..][k - 1];
      r
  }

  /** A failing check reports the first element that fails. */
  lemma {:induction false} CheckEachFirstFailure<X, E>(items: seq<X>, check: X -> Outcome<E>)
    requires CheckEach(items, check).Fail?
    ensures exists k :: (0 <= k < |items| && check(items[k]) == CheckEach(items, check)
      && forall j :: 0 <= j < k ==> check(items[j]).Pass?)
  {
    if check(items[0]).Pass? {
      CheckEachFirstFailure(items[1..], check);
      var k :| 0 <= k < |items[1..]| && check(items[1..][k]) == CheckEach(items[1..], check)
        && forall j :: 0 <= j < k ==> check(items[1..][j]).Pass?;
      assert check(items[k + 1]) == CheckEach(items, check);
      assert forall j :: 1 <= j < k + 1 ==> items[j] == items[1..][j - 1];
    } else {
      assert check(items[0]) == CheckEach(items, check);
    }
  }
}
