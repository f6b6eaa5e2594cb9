/** The Python exceptions the modelled code can raise, and the result
    types that carry them in place of raising. */
module Errors {

  datatype PyError =
    | ZeroDivisionError
    | ValueError
    | IndexError
    | KeyError
    | AttributeError
    | NameError
    | SystemExit(code: int)

  datatype Result<+T> = Ok(value: T) | Err(error: PyError) {
    predicate IsFailure() { Err? }
  }

  /** The result of a call that returns nothing (Python `None`) or raises. */
  datatype Outcome = Pass | Fail(error: PyError) {
    predicate IsFailure() { Fail? }
  }

  datatype Option<+T> = None | Some(value: T)

  /** Python accepts `-n <= i < n` as an index into a list of length `n`
      (negative indexes count from the end); anything else raises IndexError. */
  predicate InListRange(n: nat, i: int)
  {
    -(n as int) <= i < n
  }

  /** The position a valid Python index denotes. */
  function ListPosition(n: nat, i: int): (k: nat)
    requires InListRange(n, i)
    ensures k < n && (0 <= i ==> k == i) && (i < 0 ==> k == n + i)
  {
    if i < 0 then n + i else i
  }
}
