/** Small value types shared by the models: Java's nullable references and
    thrown exceptions become explicit values. */
module Wrappers {

  /** A Java reference that may be null: None stands for null. */
  datatype Option<+T> = None | Some(value: T)

  /** A Java exception as far as the models need it: its class's simple name
      and its (possibly null) message. */
  datatype Exception = Exception(simpleName: string, message: Option<string>)

  /** The exception thrown for a null or malformed argument. */
  function IllegalArgument(message: string): Exception
  {
    Exception("IllegalArgumentException", Some(message))
  }

  /** Either a value or the exception that was thrown instead of producing it. */
  datatype Result<+T> = Ok(value: T) | Thrown(exception: Exception)

  /** Android's TextUtils/StringUtils `isNullOrEmpty`. */
  predicate IsNullOrEmpty(s: Option<string>)
  {
    s.None? || s.value == ""
  }
}
