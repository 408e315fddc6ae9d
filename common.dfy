/** Small shared types: an optional value, standing for Python's `None` or a present value. */
module Common {

  datatype Option<+T> = None | Some(value: T)

  /** A request parameter is "given" when it was posted and is not the empty string
      (Python's truthiness of the value returned by `request.POST.get(...)`). */
  predicate Given(v: Option<string>)
  {
    v.Some? && v.value != ""
  }
}
