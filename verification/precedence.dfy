/** The precedence table (`getPrecedence`, `hasPrecedence`). */
module Precedence {
  import opened Results
  import opened Lexical

  /** `getPrecedence`: `^` 3, `* / %` 2, `+ -` 1, parentheses 0; anything else throws 53. */
  function GetPrecedence(op: char): (r: Result<int>)
    ensures r.Ok? <==> IsSymbol(op)
    ensures r.Fail? ==> r.code == UNKNOWN_PRECEDENCE
  {
    match op
    case '^' => Ok(3)
    case '*' | '/' | '%' => Ok(2)
    case '+' | '-' => Ok(1)
    case '(' | ')' => Ok(0)
    case _ => Fail(UNKNOWN_PRECEDENCE)
  }

  /** The rank of a character the table knows; -1 for the others. */
  function Rank(op: char): int {
    match GetPrecedence(op)
    case Ok(p) => p
    case Fail(_) => -1
  }

  /** `hasPrecedence`: whether `op1` binds at least as tightly as `op2`. */
  function HasPrecedence(op1: char, op2: char): (r: Result<bool>)
    ensures r.Ok? <==> IsSymbol(op1) && IsSymbol(op2)
    ensures r.Fail? ==> r.code == UNKNOWN_PRECEDENCE
    ensures r.Ok? ==> (r.value <==> Rank(op1) >= Rank(op2))
  {
    var p1 :- GetPrecedence(op1);
    var p2 :- GetPrecedence(op2);
    Ok(p1 >= p2)
  }

  /** The four classes of equal rank. */
  predicate SameClass(a: char, b: char) {
    || (a == '^' && b == '^')
    || ((a == '*' || a == '/' || a == '%') && (b == '*' || b == '/' || b == '%'))
    || (IsSign(a) && IsSign(b))
    || ((a == '(' || a == ')') && (b == '(' || b == ')'))
  }

  /** `a` ranks strictly below `b`: parentheses below every operator, `+ -`
      below `* / % ^`, and `* / %` below `^`. */
  predicate BindsLooser(a: char, b: char) {
    || ((a == '(' || a == ')') && IsOperator(b))
    || (IsSign(a) && IsOperator(b) && !IsSign(b))
    || ((a == '*' || a == '/' || a == '%') && b == '^')
  }

  /** On the characters it knows, `hasPrecedence` is a total preorder whose
      classes of mutually related characters are `^`, `* / %`, `+ -` and the
      parentheses; it fails exactly between a looser and a tighter character. */
  lemma HasPrecedencePreorder(a: char, b: char, c: char)
    requires IsSymbol(a) && IsSymbol(b) && IsSymbol(c)
    ensures HasPrecedence(a, a) == Ok(true)
    ensures HasPrecedence(a, b) == Ok(true) || HasPrecedence(b, a) == Ok(true)
    ensures HasPrecedence(a, b) == Ok(true) && HasPrecedence(b, c) == Ok(true) ==> HasPrecedence(a, c) == Ok(true)
    ensures HasPrecedence(a, b) == Ok(true) && HasPrecedence(b, a) == Ok(true) <==> SameClass(a, b)
    ensures HasPrecedence(a, b) == Ok(false) <==> BindsLooser(a, b)
  {
  }

  /** `isOperator` picks out exactly the characters the table ranks above the
      parentheses; the parentheses rank 0 and everything else is unknown. */
  lemma OperatorRanks(c: char)
    ensures IsOperator(c) <==> Rank(c) >= 1
    ensures Rank(c) == 0 <==> c == '(' || c == ')'
    ensures Rank(c) == -1 <==> !IsSymbol(c)
  {
  }
}
