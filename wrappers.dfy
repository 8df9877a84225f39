/** Small value wrappers shared by the whole model. */
module Wrappers {

  /** An optional key of a TypeScript object: present with a value, or absent (`undefined`). */
  datatype Option<+T> = None | Some(value: T) {
    /** The value, or `default` when absent. */
    function GetOr(default: T): T {
      if Some? then value else default
    }
  }

  /** A nullable column of a store row, or a JSON value that may be `null`. */
  datatype Nullable<+T> = Null | NonNull(value: T)

  /** The outcome of an operation that either returns a value or throws an `Error` with a message. */
  datatype Result<+T> = Success(value: T) | Failure(message: string)

  /** `x ?? undefined` on a nullable value: the read direction. */
  function NullToAbsent<T>(x: Nullable<T>): (o: Option<T>)
    ensures o.None? <==> x.Null?
    ensures o.Some? ==> o.value == x.value
  {
    match x
    case Null => None
    case NonNull(v) => Some(v)
  }

  /** `x ?? null` on an optional value: the write direction. */
  function AbsentToNull<T>(o: Option<T>): (x: Nullable<T>)
    ensures x.Null? <==> o.None?
    ensures x.NonNull? ==> x.value == o.value
  {
    match o
    case None => Null
    case Some(v) => NonNull(v)
  }

  /** Writing an optional value and reading it back gives the value back. */
  lemma AbsentToNullToAbsent<T>(o: Option<T>)
    ensures NullToAbsent(AbsentToNull(o)) == o
  {
  }

  /** Reading a nullable value and writing it back gives the column back. */
  lemma NullToAbsentToNull<T>(x: Nullable<T>)
    ensures AbsentToNull(NullToAbsent(x)) == x
  {
  }
}
