/** Failure-compatible result types shared by every module of the model.
    A fatal error of the toolchain (a thrown Error, `exit(1)` after a log line, a
    TypeError from reading a field of `undefined`) is an `Err` carrying its message. */
module Results {

  datatype Option<T> = None | Some(value: T)

  /** The message of the TypeError a read of a field of `undefined` throws. */
  const UndefinedRead := "TypeError: Cannot read properties of undefined"

  datatype Result<T> = Ok(value: T) | Err(msg: string) {

    predicate IsFailure() {
      Err?
    }

    function PropagateFailure<U>(): Result<U>
      requires Err?
    {
      Err(msg)
    }

    function Extract(): T
      requires Ok?
    {
      value
    }
  }
}
