/** The few Java-side notions the model needs: the fixed-width integer types
    of fields and parameters, references that may be null, and the runtime
    exceptions an operation can end with. */
module JavaTypes {

  /** Java `long`: a signed 64-bit integer. */
  type Long = x: int | -0x8000_0000_0000_0000 <= x < 0x8000_0000_0000_0000

  /** Java `int`: a signed 32-bit integer. */
  type Int = x: int | -0x8000_0000 <= x < 0x8000_0000

  /** A Java reference field or variable, which may hold `null`. */
  datatype Nullable<+T> = Null | Ref(value: T)

  /** The unchecked exception the modelled lifecycle calls can let escape. */
  datatype Exception =
    | NullPointer      // a method called through a null reference

  /** A call that either returns a value or ends with a thrown exception. */
  datatype Result<+T> = Ok(value: T) | Thrown(exception: Exception)
}
