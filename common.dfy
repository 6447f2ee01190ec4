/** Result and error types shared by the readers and the statistics calculators. */
module Common {

  datatype Option<+T> = None | Some(value: T)

  datatype Result<+T, +E> = Ok(value: T) | Err(error: E)

  /** Why reading stops with an error. IncompleteRecord, DifferentLength and
      MismatchedPair are the three FASTQError raises of the readers;
      InvalidQuality is the ValueError that int() raises on a quality
      character that is not a decimal digit (later snapshot only). */
  datatype ReadError = IncompleteRecord | InvalidQuality | DifferentLength | MismatchedPair

  /** The ValueError raised when a calculator or the aggregator is built from an empty list. */
  datatype ConfigError = EmptyPatterns | EmptyCalculators

  /** One call of a reader's __next__: a value, a clean end (StopIteration), or an error. */
  datatype Step<+T> = Item(value: T) | End | Error(error: ReadError)
}
