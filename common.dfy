/** Values shared by every part of the survey model: optional values, results, the
    exceptions the batch driver can let escape, and one table row. */
module Common {

  datatype Option<+T> = None | Some(value: T)

  datatype Result<+T, +E> = Ok(value: T) | Err(error: E)

  /** The exceptions the model tracks. The driver catches none of them, except that its
      `for` loops end on `Exhausted` (`StopIteration`); only `start_end_timestamp`, which
      indexes the folder directly, lets that one escape. */
  datatype Failure =
    | IndexOutOfRange          // IndexError: a list index outside the list
    | Exhausted                // StopIteration: the cursor is past the end
    | NoCursor                 // AttributeError: `__next__` before any `__iter__`
    | OpenFailed(path: string) // constructing the per-file analyser raised
    | CallFailed(path: string) // an analyser call outside any `try` raised
    | ParseFailed              // strptime raised (malformed text, or not a string)
    | ReadFailed(path: string) // reading a companion table raised
    | MoveFailed(path: string) // creating the folder or renaming the file raised

  /** One row of a time-indexed table: its timestamp and its other cells. */
  datatype Row = Row(time: int, cells: seq<string>)
}
