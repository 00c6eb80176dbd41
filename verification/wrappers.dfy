/** Failure-carrying datatypes shared by every module of the model.

- Option<T> stands for a Python value that may be `None`, and for a pandas
  cell that may be NaN.
- Reply<T> is the JSON envelope every read route answers with:
  `{success: true, data: ...}` or `{success: false, error: ...}`.
 */
module Wrappers {

  datatype Option<+T> = None | Some(value: T) {

    /** The encapsulated value, or `default` when there is none. */
    function GetOr(default: T): T {
      match this
      case Some(v) => v
      case None => default
    }
  }

  datatype Reply<+T> = Success(data: T) | Failure(error: string)

  /** The success/error wrapping every route applies to the value its
      collaborator returned: a non-None value is data, None is the route's
      error message. */
  function Wrap<T>(result: Option<T>, error: string): (r: Reply<T>)
    ensures r.Success? <==> result.Some?
    ensures r.Success? ==> r.data == result.value
    ensures r.Failure? ==> r.error == error
  {
    match result
    case Some(v) => Success(v)
    case None => Failure(error)
  }
}
