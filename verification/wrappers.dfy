/** Failure-compatible Option and Result types used throughout the model.
    A Python exception is modelled as `Err` carrying the text `str(e)` would give. */
module Wrappers {

  datatype Option<+T> = None | Some(value: T) {

    /** The value if present, otherwise the given default */
    function GetOr(default: T): T {
      match this
      case Some(v) => v
      case None => default
    }
  }

  /** The outcome of a computation that may raise: `Err` holds the exception's message */
  datatype Result<+T> = Ok(value: T) | Err(error: string) {

    predicate IsFailure() {
      Err?
    }

    function PropagateFailure<U>(): Result<U>
      requires Err?
    {
      Err(error)
    }

    function Extract(): T
      requires Ok?
    {
      value
    }
  }

  /** Applies `f` to the elements of `xs` in order and concatenates the
      results, stopping at the first failure, as a loop that extends a list
      and lets exceptions propagate does */
  function Collect<T, U>(f: T -> Result<seq<U>>, xs: seq<T>): (r: Result<seq<U>>)
    ensures r.Ok? <==> forall i :: 0 <= i < |xs| ==> f(xs[i]).Ok?
    ensures r.Err? ==> exists i :: 0 <= i < |xs| && (forall j :: 0 <= j < i ==> f(xs[j]).Ok?) && f(xs[i]).Err? && r.error == f(xs[i]).error
  {
    if |xs| == 0 then Ok([])
    else
      var head :- f(xs[0]);
      var rest :- Collect(f, xs[1..]);
      Ok(head + rest)
  }

  /** Collecting over a concatenation collects over each part in turn */
  lemma {:induction false} CollectAppend<T, U>(f: T -> Result<seq<U>>, a: seq<T>, b: seq<T>)
    requires Collect(f, a).Ok? && Collect(f, b).Ok?
    ensures Collect(f, a + b) == Ok(Collect(f, a).value + Collect(f, b).value)
  {
    if |a| == 0 {
      assert a + b == b;
      assert Collect(f, a).value + Collect(f, b).value == Collect(f, b).value;
    } else {
      var ab := a + b;
      assert ab[0] == a[0];
      assert ab[1..] == a[1..] + b;
      CollectAppend(f, a[1..], b);
      var head := f(a[0]).value;
      assert head + (Collect(f, a[1..]).value + Collect(f, b).value)
          == (head + Collect(f, a[1..]).value) + Collect(f, b).value;
    }
  }

  /** A single element contributes exactly its own result */
  lemma CollectOne<T, U>(f: T -> Result<seq<U>>, x: T)
    ensures Collect(f, [x]) == f(x)
  {
    assert [x][1..] == [];
    if f(x).Ok? {
      assert f(x).value + [] == f(x).value;
    }
  }

  /** The first element of `xs` that passes `test`, mapped through `pick`:
      a loop that breaks at the first match, where both the test and the
      pick may raise. None when no element passes. */
  function First<T, U>(test: T -> Result<bool>, pick: T -> Result<U>, xs: seq<T>): (r: Result<Option<U>>)
    ensures r == Ok(None) <==> forall i :: 0 <= i < |xs| ==> test(xs[i]) == Ok(false)
    ensures r.Ok? && r.value.Some? ==>
      (exists i :: 0 <= i < |xs| && (forall j :: 0 <= j < i ==> test(xs[j]) == Ok(false))
                   && test(xs[i]) == Ok(true) && pick(xs[i]) == Ok(r.value.value))
    ensures r.Err? ==>
      (exists i :: 0 <= i < |xs| && (forall j :: 0 <= j < i ==> test(xs[j]) == Ok(false))
                   && (test(xs[i]).Err? || (test(xs[i]) == Ok(true) && pick(xs[i]).Err?)))
  {
    if |xs| == 0 then Ok(None)
    else
      var passes :- test(xs[0]);
      if passes then
        var picked :- pick(xs[0]);
        Ok(Some(picked))
      else First(test, pick, xs[1..])
  }

  /** Tests that agree everywhere find the same element */
  lemma {:induction false} FirstCongruent<T, U>(test: T -> Result<bool>, test': T -> Result<bool>, pick: T -> Result<U>, xs: seq<T>)
    requires forall x :: test(x) == test'(x)
    ensures First(test, pick, xs) == First(test', pick, xs)
  {
    if |xs| > 0 {
      FirstCongruent(test, test', pick, xs[1..]);
    }
  }
}
