/** Small failure-carrying datatypes shared by the whole model. */
module Wrappers {

  /** A value that may be absent: a Python `None`, a JavaScript `null`/`undefined`. */
  datatype Option<+T> = None | Some(value: T) {
    function GetOr(default: T): T {
      match this
      case Some(v) => v
      case None => default
    }
  }

  /** What an HTTP route handler answers: a success with its status code and body,
      or an error status with the message the handler sends back. */
  datatype Response<+T> = Success(code: int, value: T) | Failure(code: int, message: string)

  /** A field of a JSON request body: missing (`undefined`), an explicit `null`,
      or a value. */
  datatype Field<+T> = Undefined | Null | Given(value: T) {
    /** The value a SQL parameter receives: both `undefined` and `null` bind NULL. */
    function ToOption(): (o: Option<T>)
      ensures o.Some? <==> this.Given?
    {
      match this
      case Given(v) => Some(v)
      case _ => None
    }
  }

  /** A sequence of zero or one element, used for "append if present". */
  function OptionToSeq<T>(o: Option<T>): (s: seq<T>)
    ensures |s| <= 1
    ensures o.None? <==> s == []
    ensures o.Some? ==> s == [o.value]
  {
    match o
    case None => []
    case Some(v) => [v]
  }
}
