/** Option and Result, used for Python's `None` and for the exceptions the generator raises. */
module Wrappers {

  datatype Option<+T> = None | Some(value: T)

  /**
   * Errors the generator raises and does not catch, plus `UnsupportedKeyword`, which marks
   * where this model stops short of Python.
   */
  datatype Error =
    | StopIteration            // `next(...)` over a generator with no matching template
    | TypeError(msg: string)   // `f.write(None)`, or a keyword passed twice to a call
    | AttributeError(msg: string)  // a method called on a value whose type lacks it
    | UnsupportedKeyword(keyword: string)  // an extra variable binding a declared parameter whose value the model does not carry
    | FileExists(path: string)  // `os.mkdir` on a path that already exists
    | Exception(msg: string)    // a plain `raise Exception(msg)`

  datatype Result<+T> = Success(value: T) | Failure(error: Error)

  /** The outcome of a step that produces no value. */
  datatype Outcome = Pass | Fail(error: Error)
}
