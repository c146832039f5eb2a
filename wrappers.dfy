/** Option and Result, used for the optional fields and the fallible
    operations (`Option<T>`, `anyhow::Result<T>`) of the analysed program. */
module Wrappers {

  datatype Option<+T> = None | Some(value: T)

  datatype Result<+T, +E> = Success(value: T) | Failure(error: E) {
    predicate IsFailure() {
      Failure?
    }

    function PropagateFailure<U>(): Result<U, E>
      requires Failure?
    {
      Failure(error)
    }

    function Extract(): T
      requires Success?
    {
      value
    }
  }
}

/** The errors the analysed program can report.  The program uses
    `anyhow`, so every fallible step returns the same error type; the
    variants below only record which step produced it. */
module Errors {

  datatype Error =
    | Io(reason: string)        // a read from the input file failed
    | NotPdf(message: string)   // the file does not start with the PDF signature
    | Pdf(reason: string)       // the PDF library could not resolve something
    | Zlib(reason: string)      // the zlib decoder rejected a stream
    | Utf8(position: nat)       // `String::from_utf8` rejected a buffer at this byte
}
