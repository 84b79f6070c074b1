/** From text to value: a printed expression tree, with any number of spaces
    between its tokens, passes the pre-check, tokenizes back to its tokens and
    evaluates to the tree's value. */
module Rendering {
  import opened Results
  import opened Lexical
  import opened Parens
  import opened ParenFacts
  import opened Tokenizer
  import opened TokenizerFacts
  import opened Precedence
  import opened Numeric
  import opened Machine
  import opened Trees

  /** `n` spaces. */
  function Spaces(n: nat): string {
    seq(n, _ => ' ')
  }

  /** The lexemes `ls` written out with `gaps[k]` spaces before the k-th
      lexeme and `gaps[|ls|]` spaces after the last. */
  function Spaced(ls: seq<string>, gaps: seq<nat>): string
    requires |gaps| == |ls| + 1
    decreases |ls|
  {
    if |ls| == 0 then Spaces(gaps[0]) else Spaces(gaps[0]) + ls[0] + Spaced(ls[1..], gaps[1..])
  }

  predicate IsSymbolLexeme(s: string) {
    |s| == 1 && IsSymbol(s[0])
  }

  /** Lexemes the tokenizer reads back one for one: numerals and symbols, no
      two numerals in a row, and no sign right after `(`. */
  predicate GoodLexemes(ls: seq<string>) {
    && (forall k :: 0 <= k < |ls| ==> GoodLexeme(ls[k]))
    && (forall k :: 0 <= k < |ls| - 1 ==> Fits(ls[k], ls[k + 1]))
  }

  predicate GoodLexeme(s: string) {
    IsNumeral(s) || IsSymbolLexeme(s)
  }

  /** `b` may follow `a`. */
  predicate Fits(a: string, b: string) {
    && !(IsNumeral(a) && IsNumeral(b))
    && (a == "(" && |b| > 0 ==> !IsSign(b[0]))
  }

  function ToToken(s: string): (t: Token)
    requires |s| > 0
  {
    if IsNumeral(s) then Number(s) else Symbol(s[0])
  }

  /** The tokens that lexemes read back as; `LexemesToTokens` states that
      they render to the lexemes again. */
  function ToTokens(ls: seq<string>): seq<Token>
    requires forall k :: 0 <= k < |ls| ==> |ls[k]| > 0
  {
    seq(|ls|, k requires 0 <= k < |ls| => ToToken(ls[k]))
  }

  lemma LexemesToTokens(ls: seq<string>)
    requires GoodLexemes(ls)
    ensures Lexemes(ToTokens(ls)) == ls
  {
    forall k | 0 <= k < |ls|
      ensures Lexeme(ToTokens(ls)[k]) == ls[k]
    {
      if !IsNumeral(ls[k]) {
        assert ls[k] == [ls[k][0]];
      }
    }
  }

  lemma {:induction false} SkipSpaces(s: string, i: nat, n: string, g: nat)
    requires i + g <= |s| && forall j :: i <= j < i + g ==> s[j] == ' '
    ensures ScanFrom(s, i, n) == ScanFrom(s, i + g, n)
    decreases g
  {
    if g > 0 {
      SkipSpaces(s, i + 1, n, g - 1);
    }
  }

  lemma {:induction false} ScanDigits(s: string, i: nat, n: string, w: string)
    requires i + |w| <= |s| && s[i..i + |w|] == w
    requires forall j :: 0 <= j < |w| ==> IsNumberChar(w[j])
    ensures ScanFrom(s, i, n) == ScanFrom(s, i + |w|, n + w)
    decreases |w|
  {
    if |w| == 0 {
      assert n + w == n;
    } else {
      assert s[i] == w[0];
      assert s[i + 1..i + |w|] == w[1..];
      ScanDigits(s, i + 1, n + [w[0]], w[1..]);
      assert n + [w[0]] + w[1..] == n + w;
    }
  }

  /** The first character of a spaced lexeme list is a space or the first
      character of its first lexeme. */
  lemma SpacedHead(ls: seq<string>, gaps: seq<nat>)
    requires |gaps| == |ls| + 1 && |Spaced(ls, gaps)| > 0
    requires |ls| > 0 ==> |ls[0]| > 0
    ensures Spaced(ls, gaps)[0] == ' ' || (|ls| > 0 && Spaced(ls, gaps)[0] == ls[0][0])
  {
  }

  /** The scan of a spaced good lexeme list emits exactly their tokens, after
      the pending number. */
  lemma {:induction false} ScanSpaced(s: string, i: nat, n: string, ls: seq<string>, gaps: seq<nat>)
    requires i <= |s| && |gaps| == |ls| + 1 && s[i..] == Spaced(ls, gaps)
    requires GoodLexemes(ls)
    requires n != [] ==> |ls| == 0 || !IsNumeral(ls[0])
    requires i == 0 && |ls| > 0 ==> !IsSign(ls[0][0])
    ensures ScanFrom(s, i, n) == Ok(Flush(n) + ToTokens(ls))
    decreases |ls|, 1
  {
    var g := gaps[0];
    var j := i + g;
    assert s[i..j] == Spaces(g);
    SkipSpaces(s, i, n, g);
    if |ls| == 0 {
      assert j == |s|;
      assert Flush(n) + ToTokens(ls) == Flush(n);
    } else {
      assert s[j..] == ls[0] + Spaced(ls[1..], gaps[1..]);
      assert GoodLexeme(ls[0]);
      if IsNumeral(ls[0]) {
        ScanNumeral(s, j, n, ls, gaps);
      } else {
        ScanSymbol(s, j, n, ls, gaps);
      }
    }
  }

  /** The rest of a good lexeme list is good. */
  lemma GoodTail(ls: seq<string>)
    requires |ls| > 0 && GoodLexemes(ls)
    ensures GoodLexemes(ls[1..])
    ensures GoodLexeme(ls[0])
    ensures |ls| > 1 ==> Fits(ls[0], ls[1..][0])
    ensures ToTokens(ls) == [ToToken(ls[0])] + ToTokens(ls[1..])
  {
  }

  lemma {:induction false} ScanNumeral(s: string, j: nat, n: string, ls: seq<string>, gaps: seq<nat>)
    requires j <= |s| && |ls| > 0 && |gaps| == |ls| + 1
    requires s[j..] == ls[0] + Spaced(ls[1..], gaps[1..])
    requires GoodLexemes(ls) && IsNumeral(ls[0]) && n == []
    ensures ScanFrom(s, j, n) == Ok(Flush(n) + ToTokens(ls))
    decreases |ls|, 0
  {
    var w := ls[0];
    GoodTail(ls);
    assert Flush(n) == [];
    assert s[j..j + |w|] == w;
    ScanDigits(s, j, n, w);
    assert n + w == w;
    assert s[j + |w|..] == Spaced(ls[1..], gaps[1..]);
    ScanSpaced(s, j + |w|, w, ls[1..], gaps[1..]);
    assert Flush(w) == [Number(w)] && ToToken(w) == Number(w);
    assert Flush(n) + ToTokens(ls) == [Number(w)] + ToTokens(ls[1..]);
  }

  lemma {:induction false} ScanSymbol(s: string, j: nat, n: string, ls: seq<string>, gaps: seq<nat>)
    requires j <= |s| && |ls| > 0 && |gaps| == |ls| + 1
    requires s[j..] == ls[0] + Spaced(ls[1..], gaps[1..])
    requires GoodLexemes(ls) && IsSymbolLexeme(ls[0]) && !IsNumeral(ls[0])
    requires j == 0 ==> !IsSign(ls[0][0])
    ensures ScanFrom(s, j, n) == Ok(Flush(n) + ToTokens(ls))
    decreases |ls|, 0
  {
    var w := ls[0];
    var c := w[0];
    var rest := Spaced(ls[1..], gaps[1..]);
    GoodTail(ls);
    assert w == [c] && s[j] == c;
    assert s[j + 1..] == rest;
    if c == '(' && j + 1 < |s| {
      SpacedHead(ls[1..], gaps[1..]);
      assert s[j + 1] == rest[0];
      if |ls| > 1 {
        assert ls[1..][0] == ls[1] && GoodLexeme(ls[1]);
        assert Fits(w, ls[1]);
      }
      assert !IsSign(s[j + 1]);
    }
    assert Trail(s, j) == [];
    ScanSpaced(s, j + 1, [], ls[1..], gaps[1..]);
    assert Flush([]) + ToTokens(ls[1..]) == ToTokens(ls[1..]);
    assert ToToken(w) == Symbol(c);
    assert IsSymbol(c) && Lead(s, j) == [];
    ScanAtSymbol(s, j, n);
    assert [] + Flush(n) + [Symbol(c)] + [] + ToTokens(ls[1..]) == Flush(n) + ToTokens(ls);
  }

  lemma GoodAppend(a: seq<string>, b: seq<string>)
    requires GoodLexemes(a) && GoodLexemes(b)
    requires |a| > 0 && |b| > 0 ==> Fits(a[|a| - 1], b[0])
    ensures GoodLexemes(a + b)
  {
    var ab := a + b;
    forall k | 0 <= k < |ab|
      ensures GoodLexeme(ab[k])
    {
      if k < |a| {
        assert ab[k] == a[k];
      } else {
        assert ab[k] == b[k - |a|];
      }
    }
    forall k | 0 <= k < |ab| - 1
      ensures Fits(ab[k], ab[k + 1])
    {
      if k < |a| - 1 {
        assert ab[k] == a[k] && ab[k + 1] == a[k + 1];
      } else if k == |a| - 1 {
        assert ab[k] == a[|a| - 1] && ab[k + 1] == b[0];
      } else {
        assert ab[k] == b[k - |a|] && ab[k + 1] == b[k - |a| + 1];
      }
    }
  }

  /** Printed trees begin with `(` or a numeral and end with `)` or a numeral. */
  predicate Framed(ts: seq<string>) {
    && |ts| > 0
    && (ts[0] == "(" || IsNumeral(ts[0]))
    && (ts[|ts| - 1] == ")" || IsNumeral(ts[|ts| - 1]))
  }

  /** Printed trees consist of good lexemes, are framed by parentheses or
      numerals, and are balanced. */
  lemma {:induction false} PrintShape(e: Expr)
    requires WellFormed(e)
    ensures Framed(Print(e)) && GoodLexemes(Print(e)) && Balanced(Concat(Print(e)))
  {
    match e
    case Lit(s) =>
      assert [s][1..] == [];
      assert Concat([s]) == s;
      BalancedWithoutParens(s);
    case Group(x) =>
      PrintShape(x);
      BracketShape(Print(x));
    case Bin(op, l, r) =>
      PrintShape(l);
      PrintShape(r);
      SideShape(Print(l), Strength(l) < Rank(op));
      SideShape(Print(r), Strength(r) <= Rank(op));
      BinShape(op, Bracket(Print(l), Strength(l) < Rank(op)), Bracket(Print(r), Strength(r) <= Rank(op)));
  }

  lemma SideShape(ts: seq<string>, needed: bool)
    requires Framed(ts) && GoodLexemes(ts) && Balanced(Concat(ts))
    ensures var b := Bracket(ts, needed); Framed(b) && GoodLexemes(b) && Balanced(Concat(b))
  {
    if needed {
      BracketShape(ts);
    }
  }

  lemma BinShape(op: char, left: seq<string>, right: seq<string>)
    requires IsOperator(op)
    requires Framed(left) && GoodLexemes(left) && Balanced(Concat(left))
    requires Framed(right) && GoodLexemes(right) && Balanced(Concat(right))
    ensures var ts := left + [[op]] + right; Framed(ts) && GoodLexemes(ts) && Balanced(Concat(ts))
  {
    assert GoodLexeme([op]);
    assert GoodLexemes([[op]]);
    GoodAppend(left, [[op]]);
    GoodAppend(left + [[op]], right);
    ConcatAppend(left + [[op]], right);
    ConcatAppend(left, [[op]]);
    assert [[op]][1..] == [];
    assert Concat([[op]]) == [op];
    assert Concat(left + [[op]] + right) == Concat(left) + [op] + Concat(right);
    BalancedWithoutParens([op]);
    BalancedAppend(Concat(left), [op]);
    BalancedAppend(Concat(left) + [op], Concat(right));
  }

  lemma BracketShape(ts: seq<string>)
    requires Framed(ts) && GoodLexemes(ts) && Balanced(Concat(ts))
    ensures var b := Bracket(ts, true); Framed(b) && GoodLexemes(b) && Balanced(Concat(b))
  {
    BracketGood(ts);
    BracketBalanced(ts);
  }

  lemma BracketGood(ts: seq<string>)
    requires Framed(ts) && GoodLexemes(ts)
    ensures GoodLexemes(Bracket(ts, true))
  {
    assert GoodLexeme("(") && GoodLexeme(")");
    assert GoodLexemes(["("]) && GoodLexemes([")"]);
    assert Fits("(", ts[0]);
    GoodAppend(["("], ts);
    GoodAppend(["("] + ts, [")"]);
  }

  lemma BracketBalanced(ts: seq<string>)
    requires Balanced(Concat(ts))
    ensures Balanced(Concat(Bracket(ts, true)))
  {
    ConcatAppend(["("] + ts, [")"]);
    ConcatAppend(["("], ts);
    assert ["("][1..] == [] && [")"][1..] == [];
    assert Concat(["("]) == "(";
    assert Concat([")"]) == ")";
    assert Concat(Bracket(ts, true)) == "(" + Concat(ts) + ")";
    BalancedWrap(Concat(ts));
  }

  /** Spaces do not change balance. */
  lemma {:induction false} SpacedParens(ls: seq<string>, gaps: seq<nat>)
    requires |gaps| == |ls| + 1
    ensures ParensOf(Spaced(ls, gaps)) == ParensOf(Concat(ls))
    decreases |ls|
  {
    BalancedWithoutParens(Spaces(gaps[0]));
    if |ls| > 0 {
      SpacedParens(ls[1..], gaps[1..]);
      ParensOfAppend(Spaces(gaps[0]) + ls[0], Spaced(ls[1..], gaps[1..]));
      ParensOfAppend(Spaces(gaps[0]), ls[0]);
      ParensOfAppend(ls[0], Concat(ls[1..]));
    }
  }

  /** Whitespace invariance, precedence and associativity from the text: a
      well-formed tree printed with any spaces between or around its tokens
      evaluates to the tree's value, or to its first error. */
  lemma CalculateSpaced(d: Arithmetic, e: Expr, gaps: seq<nat>)
    requires WellFormed(e) && |gaps| == |Print(e)| + 1
    ensures Calculate(d, Spaced(Print(e), gaps)) == Eval(d, e)
  {
    var ls := Print(e);
    var s := Spaced(ls, gaps);
    PrintShape(e);
    SpacedParens(ls, gaps);
    BalancedParensOf(s);
    BalancedParensOf(Concat(ls));
    assert Balanced(s);
    assert s[0..] == s;
    ScanSpaced(s, 0, [], ls, gaps);
    assert Flush([]) == [] && [] + ToTokens(ls) == ToTokens(ls);
    assert ScanFrom(s, 0, []) == Ok(ToTokens(ls));
    assert Tokenize(s) == Ok(ToTokens(ls));
    LexemesToTokens(ls);
    EvaluatePrint(d, e);
  }
}
