/** Option and Result for the reader, and the exceptions the Bladed reader
    can raise, one constructor per distinct failure. */
module Outcomes {

  datatype Option<+T> = None | Some(value: T)

  /** A failure of the reader. The Python exception class is named beside
      each constructor. */
  datatype Error =
    | BlankLine                  // IndexError: `split_str[0]` on an empty split
    | BadDType(code: string)     // ValueError: unknown FORMAT code
    | BadInt(text: string)       // ValueError raised by `int()`
    | BadFloat(text: string)     // ValueError raised by `float()`
    | UnknownKind(kind: string)  // NotImplementedError: unknown conversion type
    | NoHeaderFiles              // FileNotFoundError raised by `scan`
    | FileMissing(path: string)  // FileNotFoundError raised by `open`
    | Undecodable(path: string)  // UnicodeDecodeError reading a header in text mode
    | NotScanned                 // TypeError: `results` is still None
    | KeyMissing(key: string)    // KeyError on a header dictionary
    | WrongType(key: string)     // TypeError: a header value of a kind the code cannot use
    | DatasetNotFound(name: string)  // KeyError raised by `_find_dataset`
    | UnsupportedDims            // NotImplementedError: NDIMENS not 2 or 3
    | BufferSize                 // ValueError raised by `np.frombuffer`
    | ShapeMismatch              // ValueError raised by `reshape`
    | TooManyIndices             // IndexError raised by numpy slicing

  datatype Result<+T> = Ok(value: T) | Err(error: Error) {
    predicate IsFailure() { Err? }
    function PropagateFailure<U>(): Result<U>
      requires Err?
    {
      Err(error)
    }
    function Extract(): T
      requires Ok?
    {
      value
    }
  }
}
