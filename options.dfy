/** An optional value: a missing JSON key, an absent argument, or an
    error path of Python code that raises. */
module Options {
  datatype Option<T> = None | Some(value: T)
}
