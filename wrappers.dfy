/** Failure-carrying result types, after Rust's `Option`, `Result<T>` and `Result<()>`,
    and the short-circuiting check loop (`for x in xs { if bad(x) { bail!(..) } }`). */
module Wrappers {

  datatype Option<+T> = None | Some(value: T)

  datatype Result<+T, +E> = Success(value: T) | Failure(error: E)

  /** `Result<()>`: either nothing went wrong, or the first error met. */
  datatype Outcome<+E> = Pass | Fail(error: E)

  /** Runs `check` on every item in order and stops at the first failure,
      as a loop whose body `bail!`s does. */
  function FirstFailure<T, E>(items: seq<T>, check: T -> Outcome<E>): (r: Outcome<E>)
    ensures r.Pass? <==> forall i :: 0 <= i < |items| ==> check(items[i]).Pass?
    ensures r.Fail? ==> exists i :: 0 <= i < |items| && check(items[i]) == r &&
                                    forall j :: 0 <= j < i ==> check(items[j]).Pass?
  {
    if items == [] then Pass
    else if check(items[0]).Fail? then check(items[0])
    else
      var rest := FirstFailure(items[1..], check);
      assert forall i :: 0 < i < |items| ==> items[i] == items[1..][i - 1];
      rest
  }

  /** `first?; second`: the second check runs only when the first passed. */
  function AndThen<E>(first: Outcome<E>, second: Outcome<E>): (r: Outcome<E>)
    ensures r.Pass? <==> first.Pass? && second.Pass?
    ensures first.Fail? ==> r == first
    ensures first.Pass? ==> r == second
  {
    if first.Fail? then first else second
  }
}
