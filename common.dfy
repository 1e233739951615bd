/** Small value types shared by the two components: an optional value (Java's
    nullable reference) and the way a Java call can end. */
module Common {

  /** A Java reference that may be null. */
  datatype Option<+T> = None | Some(value: T)

  /** The raw bytes of an internet address; equality of addresses is
      equality of these bytes. */
  type Address = seq<bv8>

  /** The unchecked exceptions the modelled code can raise. */
  datatype JavaException = NullPointer | ArrayIndexOutOfBounds

  /** How a call that may throw returned. */
  datatype Completion = Normal | Threw(exception: JavaException)
}
