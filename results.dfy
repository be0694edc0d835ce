/** Success/failure wrapper shared by the parser, the history encoder, the table and the card input. */
module Results {

  /** Either a value or the error the source reports instead of it. */
  datatype Result<T, E> = Ok(value: T) | Err(error: E)

  /** Concatenates a list of strings, as Python's `"".join(xs)` does. */
  function Concat(xs: seq<string>): string
  {
    if xs == [] then [] else xs[0] + Concat(xs[1..])
  }
}
