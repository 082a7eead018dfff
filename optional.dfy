/** A value that may be absent: Python's `None` and the failure of an operation
    that raises on some inputs. */
module Optional {
  datatype Option<T> = None | Some(value: T)
}
