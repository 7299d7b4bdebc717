/** Failure-compatible wrappers shared by every parser of the model: Rust's
    `Option` and `Result`, and the `collect::<Result<Vec<_>, _>>()` idiom that
    maps a fallible function over a slice and stops at the first failure. */
module Wrappers {

  datatype Option<+T> = None | Some(value: T)

  datatype Result<+T, +E> = Ok(value: T) | Err(error: E) {

    predicate IsFailure() {
      Err?
    }

    function PropagateFailure<U>(): Result<U, E>
      requires Err?
    {
      Err(error)
    }

    function Extract(): T
      requires Ok?
    {
      value
    }
  }

  /** `Result::ok()`: keeps the value and drops the error. */
  function ToOption<T, E>(r: Result<T, E>): (o: Option<T>)
    ensures o.Some? <==> r.Ok?
    ensures o.Some? ==> o.value == r.value
  {
    match r
    case Ok(v) => Some(v)
    case Err(_) => None
  }

  /** Index of the first element on which `f` fails, or `|xs|` when none does. */
  function FirstFailure<A, B, E>(xs: seq<A>, f: A -> Result<B, E>): (k: nat)
    ensures k <= |xs|
    ensures forall i :: 0 <= i < k ==> f(xs[i]).Ok?
    ensures k < |xs| ==> f(xs[k]).Err?
  {
    if |xs| == 0 then 0
    else if f(xs[0]).Err? then 0
    else 1 + FirstFailure(xs[1..], f)
  }

  /** `xs.iter().map(f).collect::<Result<Vec<_>, _>>()`: succeeds with one
      result per element, in order, or fails with the error of the first
      element on which `f` fails. */
  function MapAll<A, B, E>(xs: seq<A>, f: A -> Result<B, E>): (r: Result<seq<B>, E>)
    ensures r.Ok? <==> forall i :: 0 <= i < |xs| ==> f(xs[i]).Ok?
    ensures r.Ok? ==> |r.value| == |xs| && forall i :: 0 <= i < |xs| ==> r.value[i] == f(xs[i]).value
    ensures r.Err? ==> FirstFailure(xs, f) < |xs| && r.error == f(xs[FirstFailure(xs, f)]).error
  {
    if |xs| == 0 then Ok([])
    else
      match f(xs[0])
      case Err(e) => Err(e)
      case Ok(y) =>
        match MapAll(xs[1..], f)
        case Err(e) => Err(e)
        case Ok(ys) =>
          assert forall i :: 1 <= i < |xs| ==> xs[i] == xs[1..][i - 1];
          Ok([y] + ys)
  }
}
