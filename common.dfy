/** Value types shared by the configuration builder and the client adapter. */
module Common {

  /** Go's `byte` / `uint8`. */
  newtype byte = x: int | 0 <= x < 0x100

  /** Go's `uint16`: Modbus addresses, quantities and register values. */
  newtype uint16 = x: int | 0 <= x < 0x1_0000

  /** A value that may be absent; `None` stands for Go's `nil`. */
  datatype Option<T> = None | Some(value: T)

  /** A value or an error, the Dafny form of Go's `(T, error)` pair. */
  datatype Result<T, E> = Ok(value: T) | Err(error: E) {

    predicate IsFailure() {
      Err?
    }

    function PropagateFailure<U>(): Result<U, E>
      requires Err?
    {
      Err(error)
    }

    function Extract(): T
      requires Ok?
    {
      value
    }
  }
}
