/** Go values the unit-state query passes around: optional values, slices that
    may be nil, error values and two-way results. */
module GoBase {

  /** An optional value; `None` stands for a nil pointer. */
  datatype Option<+T> = None | Some(value: T)

  /** A Go `error`, reduced to its message (its identity and dynamic type
      are not kept). Errors made by code outside the model (the request
      builder, the transport, the JSON decoder) are arbitrary values of this
      type and are passed on unchanged; `errors.New(m)` is `Error(m)`. */
  datatype Error = Error(message: string)

  /** A value-or-error pair as returned by a fallible Go call. */
  datatype Result<+T> = Success(value: T) | Failure(error: Error)

  /** A Go slice: `Nil` is the nil slice, `Make(elems)` a non-nil one
      (possibly of length zero). */
  datatype Slice<+T> = Nil | Make(elems: seq<T>) {

    /** The elements, as `range` or `len` see them: a nil slice has none. */
    function Items(): (s: seq<T>)
      ensures Nil? ==> s == []
      ensures Make? ==> s == elems
    {
      if Nil? then [] else elems
    }
  }
}
