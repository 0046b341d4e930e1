/** Error kinds raised by the engine, and the Option/Result wrappers used for
    every operation that can raise. */
module Errors {

  datatype Option<+T> = None | Some(value: T) {
    function GetOr(default: T): T {
      match this
      case Some(v) => v
      case None => default
    }
  }

  /** The three exception classes of sparser_exceptions.py, plus BuiltinError
      for the Python built-in exceptions the code raises without meaning to
      (IndexError on `pop(0)` of an empty list or on `split(' ')[1]`, a
      NameError on an unbound local, and RecursionError, which the model
      reaches when its recursion fuel runs out). */
  datatype Error =
    | SyntaxError(msg: string)
    | ValueError(msg: string)
    | UnexpectedError(msg: string)
    | BuiltinError(msg: string)

  datatype Result<+T> = Ok(value: T) | Err(error: Error) {
    predicate IsFailure() {
      Err?
    }

    function PropagateFailure<U>(): Result<U>
      requires Err?
    {
      Err(error)
    }

    function Extract(): T
      requires Ok?
    {
      value
    }
  }

  /** `acc` followed by the successful result, or the failure unchanged. */
  function Prepend<T>(acc: seq<T>, r: Result<seq<T>>): Result<seq<T>> {
    match r
    case Ok(xs) => Ok(acc + xs)
    case Err(e) => Err(e)
  }

  lemma PrependAssoc<T>(a: seq<T>, b: seq<T>, r: Result<seq<T>>)
    ensures Prepend(a, Prepend(b, r)) == Prepend(a + b, r)
  {
    if r.Ok? {
      assert a + (b + r.value) == (a + b) + r.value;
    }
  }

  lemma PrependNothing<T>(r: Result<seq<T>>)
    ensures Prepend([], r) == r
  {
    if r.Ok? {
      assert [] + r.value == r.value;
    }
  }
}
