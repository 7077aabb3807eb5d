/** Outcome types shared by the model: an optional value, and the result of
    an operation that either completes or raises a Java exception (whose
    message is kept as text). */
module Results {

  datatype Option<+T> = None | Some(value: T)

  /** `Fail(message)` stands for an exception thrown by the source. */
  datatype Result<+T> = Ok(value: T) | Fail(message: string)

  /** The outcome of a `void` operation that may throw. */
  datatype Outcome = Done | Thrown(message: string)

  /** The messages kept for the Java runtime exceptions the model raises. */
  const NullPointer: string := "NullPointerException"
  const ClassCast: string := "ClassCastException"
  const IndexOutOfBounds: string := "ArrayIndexOutOfBoundsException"
}
