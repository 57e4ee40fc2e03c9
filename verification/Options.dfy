/** The optional value used throughout the model. */
module Options {
  datatype Option<+T> = None | Some(value: T)

  function OrElse<T>(x: Option<T>, fallback: T): T {
    if x.Some? then x.value else fallback
  }
}
