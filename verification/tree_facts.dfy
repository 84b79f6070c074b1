/** Consequences of `Trees.EvaluatePrint` for the evaluator's token input:
    operators of equal rank group to the left, a higher-rank operator binds
    first, and parentheses that do not change the grouping change nothing. */
module TreeFacts {
  import opened Results
  import opened Lexical
  import opened Precedence
  import opened Numeric
  import opened Machine
  import opened Trees

  /** `a op1 b op2 c` with `op1` ranked at least as high as `op2` is
      `(a op1 b) op2 c`: the first operator is applied first, and its error,
      if any, is the result. With `op1 == op2` this is left associativity,
      `^` included. */
  lemma LeftFirst(d: Arithmetic, a: string, op1: char, b: string, op2: char, c: string)
    requires IsNumeral(a) && IsNumeral(b) && IsNumeral(c)
    requires IsOperator(op1) && IsOperator(op2) && Rank(op1) >= Rank(op2)
    ensures Evaluate(d, [a, [op1], b, [op2], c])
         == match ApplyOperator(d, a, b, op1) {
              case Fail(k) => Fail(k)
              case Ok(x) => ApplyOperator(d, x, c, op2)
            }
  {
    var e := Bin(op2, Bin(op1, Lit(a), Lit(b)), Lit(c));
    assert Print(Bin(op1, Lit(a), Lit(b))) == [a, [op1], b];
    assert Print(e) == [a, [op1], b, [op2], c];
    EvaluatePrint(d, e);
    assert Eval(d, Bin(op1, Lit(a), Lit(b))) == ApplyOperator(d, a, b, op1);
    match ApplyOperator(d, a, b, op1)
    case Fail(k) =>
    case Ok(x) =>
      assert Eval(d, e) == ApplyOperator(d, x, c, op2);
  }

  /** `a op1 b op2 c` with `op2` ranked strictly higher than `op1` is
      `a op1 (b op2 c)`: the second operator is applied first. */
  lemma RightFirst(d: Arithmetic, a: string, op1: char, b: string, op2: char, c: string)
    requires IsNumeral(a) && IsNumeral(b) && IsNumeral(c)
    requires IsOperator(op1) && IsOperator(op2) && Rank(op2) > Rank(op1)
    ensures Evaluate(d, [a, [op1], b, [op2], c])
         == match ApplyOperator(d, b, c, op2) {
              case Fail(k) => Fail(k)
              case Ok(y) => ApplyOperator(d, a, y, op1)
            }
  {
    var e := Bin(op1, Lit(a), Bin(op2, Lit(b), Lit(c)));
    assert Print(Bin(op2, Lit(b), Lit(c))) == [b, [op2], c];
    assert Print(e) == [a, [op1], b, [op2], c];
    EvaluatePrint(d, e);
    assert Eval(d, Bin(op2, Lit(b), Lit(c))) == ApplyOperator(d, b, c, op2);
    match ApplyOperator(d, b, c, op2)
    case Fail(k) =>
    case Ok(y) =>
      assert Eval(d, e) == ApplyOperator(d, a, y, op1);
  }

  /** The tree without its explicit groups. */
  function Strip(e: Expr): Expr {
    match e
    case Lit(s) => e
    case Bin(op, l, r) => Bin(op, Strip(l), Strip(r))
    case Group(x) => Strip(x)
  }

  function GroupCount(e: Expr): nat {
    match e
    case Lit(_) => 0
    case Bin(_, l, r) => GroupCount(l) + GroupCount(r)
    case Group(x) => 1 + GroupCount(x)
  }

  /** Stripping removes every group and keeps the tree well formed and its value. */
  lemma {:induction false} StripKeeps(d: Arithmetic, e: Expr)
    requires WellFormed(e)
    ensures WellFormed(Strip(e)) && GroupCount(Strip(e)) == 0
    ensures Eval(d, Strip(e)) == Eval(d, e)
  {
    match e
    case Lit(_) =>
    case Group(x) =>
      StripKeeps(d, x);
    case Bin(op, l, r) =>
      StripKeeps(d, l);
      StripKeeps(d, r);
  }

  /** Wrapping a whole expression in parentheses does not change its value. */
  lemma GroupNeutral(d: Arithmetic, e: Expr)
    requires WellFormed(e)
    ensures Evaluate(d, ["("] + Print(e) + [")"]) == Evaluate(d, Print(e))
  {
    EvaluatePrint(d, e);
    EvaluatePrint(d, Group(e));
  }

  /** Redundant parentheses anywhere in an expression do not change its value:
      the printed expression evaluates like the one printed with only the
      parentheses its grouping needs. */
  lemma StripNeutral(d: Arithmetic, e: Expr)
    requires WellFormed(e)
    ensures Evaluate(d, Print(e)) == Evaluate(d, Print(Strip(e)))
  {
    StripKeeps(d, e);
    EvaluatePrint(d, e);
    EvaluatePrint(d, Strip(e));
  }
}
