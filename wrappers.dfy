/** Option and Result values, and the Java exceptions the modelled code raises. */
module Wrappers {

  /** A Java reference that may be null. */
  datatype Option<+T> = None | Some(value: T)

  /** The exceptions thrown by the modelled code, by Java class. */
  datatype Error =
    | SettingsError(message: string)      // org.elasticsearch.common.settings.SettingsException
    | IllegalState(message: string)       // java.lang.IllegalStateException
    | IllegalArgument(message: string)    // java.lang.IllegalArgumentException
    | ParseError(setting: string)         // ElasticSearchParseException "... for setting: <key>"
    | NumberFormat(input: string)         // java.lang.NumberFormatException
    | UnsupportedOperation                // java.lang.UnsupportedOperationException
    | ClassCast                           // java.lang.ClassCastException from a settings cast
    | NullPointer                         // java.lang.NullPointerException
    | EndOfStream                         // java.io.IOException: the input stream ends or holds another value

  /** The outcome of a Java call: a value, or the exception it throws. */
  datatype Result<+T> = Ok(value: T) | Err(error: Error) {
    predicate IsFailure() { Err? }
    function PropagateFailure<U>(): Result<U> requires Err? { Err(error) }
    function Extract(): T requires Ok? { value }
  }

  /** The outcome of a Java call returning void. */
  datatype Outcome = Done | Fail(error: Error) {
    predicate IsFailure() { Fail? }
    function PropagateFailure(): Outcome requires Fail? { this }
  }
}
