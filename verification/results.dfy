/** Outcomes of the evaluator's steps: a value, or the integer the evaluator throws. */
module Results {

  /** `Ok` carries a value; `Fail` carries the integer the C++ code throws. */
  datatype Result<+T> = Ok(value: T) | Fail(code: int) {

    predicate IsFailure() {
      Fail?
    }

    function PropagateFailure<U>(): Result<U>
      requires Fail?
    {
      Fail(code)
    }

    function Extract(): T
      requires Ok?
    {
      value
    }
  }

  // The integers thrown by the evaluator.

  /** `)` reached the bottom of the operator stack without meeting `(`. */
  const UNMATCHED_CLOSE: int := 1
  /** A reduction found no operand at all. */
  const NO_OPERANDS: int := 21
  /** A reduction found exactly one operand. */
  const ONE_OPERAND: int := 22
  /** `/` or `%` with a zero right operand. */
  const DIVISION_BY_ZERO: int := 3
  /** A character outside digits, `.`, space, operators and parentheses. */
  const INVALID_CHARACTER: int := 51
  /** A reduction of a character that is not one of the six operators. */
  const UNKNOWN_OPERATOR: int := 52
  /** A precedence lookup of a character that is neither an operator nor a parenthesis. */
  const UNKNOWN_PRECEDENCE: int := 53
  /** The parenthesis pre-check failed. */
  const UNBALANCED: int := 6
  /** Not thrown by the evaluator: it stands for reading the top of an empty operand
      stack at the end of `calculate`, which the C++ code leaves undefined. */
  const EMPTY_RESULT: int := 0
}
