/** Option and Result, and the error kinds the scene generator raises. */
module Wrappers {

  datatype Option<+T> = None | Some(value: T)

  /** Why an operation failed; each constructor is one raise site of the program. */
  datatype Error =
    | NotType1Line(line: string)        // parse: fewer than 15 tokens or first token not "1"
    | BadNumber(token: string)          // int(...) / float(...) of a token that is not a number
    | NoType1Lines                      // loader found no type-1 line
    | EmptyAssembly                     // centroid of zero parts (division by zero)
    | EmptyText                         // glyph renderer given ""
    | UnsupportedCharacter(ch: char)    // glyph renderer / text measure given a char outside the table
    | UnknownLength(length: int)        // PLATES[1][length] with a missing key
    | UnknownPart(partId: string)       // strict BOM classifier

  datatype Result<+T> = Ok(value: T) | Err(error: Error) {
    predicate IsFailure() { Err? }
    function PropagateFailure<U>(): Result<U>
      requires Err?
    {
      Err(error)
    }
    function Extract(): T
      requires Ok?
    {
      value
    }
  }
}
