/** The operator application (`applyOperator`) over an abstract numeric layer. */
module Numeric {
  import opened Results
  import opened Lexical

  /** The float layer: operands and results travel as decimal text, as on the
      C++ operand stack. `compute(op, a, b)` stands for parsing `a` and `b`,
      applying `op` in single precision and rendering the result;
      `isZero(b)` for "`b` parses to zero". */
  datatype Arithmetic = Arithmetic(compute: (char, string, string) -> string, isZero: string -> bool)

  /** `applyOperator`: the six operators compute; `/` and `%` with a zero right
      operand throw 3; any other character throws 52. */
  function ApplyOperator(d: Arithmetic, a: string, b: string, op: char): (r: Result<string>)
    ensures r.Ok? <==> IsOperator(op) && !((op == '/' || op == '%') && d.isZero(b))
    ensures r.Ok? ==> r.value == d.compute(op, a, b)
    ensures r == Fail(DIVISION_BY_ZERO) <==> (op == '/' || op == '%') && d.isZero(b)
    ensures r == Fail(UNKNOWN_OPERATOR) <==> !IsOperator(op)
  {
    match op
    case '+' | '-' | '*' | '^' => Ok(d.compute(op, a, b))
    case '/' | '%' => if d.isZero(b) then Fail(DIVISION_BY_ZERO) else Ok(d.compute(op, a, b))
    case _ => Fail(UNKNOWN_OPERATOR)
  }
}
