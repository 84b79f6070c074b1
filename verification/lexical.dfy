/** Character classes and the tokens the tokenizer emits. */
module Lexical {

  predicate IsDigit(c: char) {
    '0' <= c <= '9'
  }

  /** `isOperator`: one of the six binary operators. */
  predicate IsOperator(c: char) {
    c == '+' || c == '-' || c == '*' || c == '/' || c == '^' || c == '%'
  }

  /** The two operators that may act as a unary sign. */
  predicate IsSign(c: char) {
    c == '+' || c == '-'
  }

  /** A character the tokenizer emits as a one-character token. */
  predicate IsSymbol(c: char) {
    IsOperator(c) || c == '(' || c == ')'
  }

  /** A character the tokenizer accumulates into a number lexeme. */
  predicate IsNumberChar(c: char) {
    IsDigit(c) || c == '.'
  }

  /** A character the tokenizer accepts. */
  predicate IsValid(c: char) {
    IsSymbol(c) || IsNumberChar(c) || c == ' '
  }

  /** A token as emitted: an accumulated number lexeme, a one-character
      operator or parenthesis, or the `"0"` injected before a unary sign. */
  datatype Token = Number(text: string) | Symbol(c: char) | InjectedZero

  /** The text the evaluator receives for a token. */
  function Lexeme(t: Token): string {
    match t
    case Number(s) => s
    case Symbol(c) => [c]
    case InjectedZero => "0"
  }

  /** The texts the evaluator receives, token by token. */
  function Lexemes(ts: seq<Token>): seq<string> {
    seq(|ts|, k requires 0 <= k < |ts| => Lexeme(ts[k]))
  }

  /** The concatenation of a sequence of strings. */
  function Concat(ss: seq<string>): string {
    if |ss| == 0 then [] else ss[0] + Concat(ss[1..])
  }

  lemma {:induction false} ConcatAppend(a: seq<string>, b: seq<string>)
    ensures Concat(a + b) == Concat(a) + Concat(b)
    decreases |a|
  {
    if |a| == 0 {
      assert a + b == b;
    } else {
      assert (a + b)[1..] == a[1..] + b;
      ConcatAppend(a[1..], b);
    }
  }
}
