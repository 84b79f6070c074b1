/** Worked inputs, over any arithmetic. */
module Scenarios {
  import opened Results
  import opened Lexical
  import opened Parens
  import opened ParenFacts
  import opened Tokenizer
  import opened TokenizerFacts
  import opened Precedence
  import opened Numeric
  import opened Machine
  import opened MachineFacts
  import opened Trees
  import opened Rendering

  /** Each lexeme preceded by one space. */
  function Spaced1(ls: seq<string>): string
    decreases |ls|
  {
    if |ls| == 0 then [] else " " + ls[0] + Spaced1(ls[1..])
  }

  /** `n` gaps of one space each. */
  function Ones(n: nat): seq<nat> {
    seq(n, _ => 1)
  }

  /** No parenthesis anywhere in `s`, checked character by character. */
  predicate ParenFree(s: string)
    decreases |s|
  {
    |s| == 0 || (!IsParen(s[0]) && ParenFree(s[1..]))
  }

  lemma {:induction false} ParenFreeBalanced(s: string)
    requires ParenFree(s)
    ensures Balanced(s)
  {
    forall k | 0 <= k < |s|
      ensures !IsParen(s[k])
    {
      ParenFreeAt(s, k);
    }
    BalancedWithoutParens(s);
  }

  lemma {:induction false} ParenFreeAt(s: string, k: nat)
    requires ParenFree(s) && k < |s|
    ensures !IsParen(s[k])
    decreases k
  {
    if k > 0 {
      ParenFreeAt(s[1..], k - 1);
    }
  }

  /** `calculate` on a text whose tokens are known. */
  lemma CalculateFrom(d: Arithmetic, s: string, ts: seq<Token>, ls: seq<string>)
    requires Tokenize(s).Ok? && Tokenize(s).value == ts && Lexemes(ts) == ls
    ensures Calculate(d, s) == Evaluate(d, ls)
  {
  }

  /** `calculate` on a text whose tokens print a known tree. */
  lemma CalculatePrinted(d: Arithmetic, s: string, ts: seq<Token>, e: Expr)
    requires Tokenize(s).Ok? && Tokenize(s).value == ts && Lexemes(ts) == Print(e)
    requires WellFormed(e)
    ensures Calculate(d, s) == Eval(d, e)
  {
    EvaluatePrint(d, e);
  }

  lemma {:induction false} Spaced1Gaps(ls: seq<string>)
    ensures Spaced(ls, Ones(|ls|) + [0]) == Spaced1(ls)
    decreases |ls|
  {
    if |ls| == 0 {
      assert Spaces(0) == [];
    } else {
      var g := Ones(|ls|) + [0];
      assert g[0] == 1 && g[1..] == Ones(|ls| - 1) + [0];
      assert Spaces(1) == " ";
      Spaced1Gaps(ls[1..]);
    }
  }

  /** Single spaces between the lexemes, none at either end. */
  lemma SingleSpacedText(ls: seq<string>)
    requires |ls| > 0
    ensures |[0] + (Ones(|ls| - 1) + [0])| == |ls| + 1
    ensures Spaced(ls, [0] + (Ones(|ls| - 1) + [0])) == ls[0] + Spaced1(ls[1..])
  {
    var g1 := Ones(|ls| - 1) + [0];
    var gaps := [0] + g1;
    assert gaps[0] == 0 && gaps[1..] == g1;
    assert |ls[1..]| == |ls| - 1;
    Spaced1Gaps(ls[1..]);
    assert Spaced(ls[1..], g1) == Spaced1(ls[1..]);
    assert Spaces(0) == [];
    assert Spaces(0) + ls[0] == ls[0];
    assert Spaced(ls, gaps) == Spaces(0) + ls[0] + Spaced(ls[1..], g1);
  }

  lemma PrintNonEmpty(e: Expr)
    ensures |Print(e)| > 0
  {
    match e
    case Lit(_) =>
    case Group(_) =>
    case Bin(op, l, r) =>
      assert |Bracket(Print(l), Strength(l) < Rank(op)) + [[op]]| > 0;
  }

  /** A printed expression written with single spaces between its lexemes. */
  lemma CalculateSingleSpaced(d: Arithmetic, e: Expr)
    requires WellFormed(e)
    ensures |Print(e)| > 0
    ensures Calculate(d, Print(e)[0] + Spaced1(Print(e)[1..])) == Eval(d, e)
  {
    var ls := Print(e);
    PrintNonEmpty(e);
    SingleSpacedText(ls);
    CalculateSpaced(d, e, [0] + (Ones(|ls| - 1) + [0]));
  }

  /** `calculate` on a printed tree written with single spaces. */
  lemma CalculateTree(d: Arithmetic, e: Expr, s: string, v: Result<string>)
    requires WellFormed(e) && |Print(e)| > 0 && s == Print(e)[0] + Spaced1(Print(e)[1..])
    requires Eval(d, e) == v
    ensures Calculate(d, s) == v
  {
    CalculateSingleSpaced(d, e);
  }

  lemma MulBeforeAddText()
    ensures var e := Bin('+', Lit("3"), Bin('*', Lit("4"), Lit("2")));
      |Print(e)| > 0 && Print(e)[0] + Spaced1(Print(e)[1..]) == "3 + 4 * 2"
  {
    var e := Bin('+', Lit("3"), Bin('*', Lit("4"), Lit("2")));
    MulBeforeAddPrint();
    var ls := ["3", "+", "4", "*", "2"];
    assert ls[0] == "3" && ls[1..] == ["+", "4", "*", "2"];
    Spaced1Four("+", "4", "*", "2");
    assert "3" + (" " + "+" + " " + "4" + " " + "*" + " " + "2") == "3 + 4 * 2";
  }

  lemma MulBeforeAddPrint()
    ensures Print(Bin('+', Lit("3"), Bin('*', Lit("4"), Lit("2")))) == ["3", "+", "4", "*", "2"]
  {
    assert Print(Bin('*', Lit("4"), Lit("2"))) == ["4", "*", "2"];
  }

  /** Four lexemes, each after one space. */
  lemma Spaced1Four(w: string, x: string, y: string, z: string)
    ensures Spaced1([w, x, y, z]) == " " + w + " " + x + " " + y + " " + z
  {
    assert [w, x, y, z][1..] == [x, y, z] && [x, y, z][1..] == [y, z] && [y, z][1..] == [z] && [z][1..] == [];
    assert Spaced1([z]) == " " + z;
    assert Spaced1([y, z]) == " " + y + (" " + z);
    assert Spaced1([x, y, z]) == " " + x + (" " + y + " " + z);
    assert Spaced1([w, x, y, z]) == " " + w + (" " + x + " " + y + " " + z);
  }

  /** `*` binds before `+`. */
  lemma MulBeforeAdd(d: Arithmetic)
    ensures Calculate(d, "3 + 4 * 2") == Ok(d.compute('+', "3", d.compute('*', "4", "2")))
  {
    var e := Bin('+', Lit("3"), Bin('*', Lit("4"), Lit("2")));
    MulBeforeAddText();
    assert Eval(d, Bin('*', Lit("4"), Lit("2"))) == Ok(d.compute('*', "4", "2"));
    CalculateTree(d, e, "3 + 4 * 2", Ok(d.compute('+', "3", d.compute('*', "4", "2"))));
  }

  lemma PowerGroupsLeftText()
    ensures var e := Bin('^', Bin('^', Lit("2"), Lit("3")), Lit("2"));
      |Print(e)| > 0 && Print(e)[0] + Spaced1(Print(e)[1..]) == "2 ^ 3 ^ 2"
  {
    PowerGroupsLeftPrint();
    var ls := ["2", "^", "3", "^", "2"];
    assert ls[0] == "2" && ls[1..] == ["^", "3", "^", "2"];
    Spaced1Four("^", "3", "^", "2");
    assert "2" + (" " + "^" + " " + "3" + " " + "^" + " " + "2") == "2 ^ 3 ^ 2";
  }

  lemma PowerGroupsLeftPrint()
    ensures Print(Bin('^', Bin('^', Lit("2"), Lit("3")), Lit("2"))) == ["2", "^", "3", "^", "2"]
  {
    assert Print(Bin('^', Lit("2"), Lit("3"))) == ["2", "^", "3"];
  }

  /** `^` groups to the left like every other operator. */
  lemma PowerGroupsLeft(d: Arithmetic)
    ensures Calculate(d, "2 ^ 3 ^ 2") == Ok(d.compute('^', d.compute('^', "2", "3"), "2"))
  {
    var e := Bin('^', Bin('^', Lit("2"), Lit("3")), Lit("2"));
    PowerGroupsLeftText();
    assert Eval(d, Bin('^', Lit("2"), Lit("3"))) == Ok(d.compute('^', "2", "3"));
    CalculateTree(d, e, "2 ^ 3 ^ 2", Ok(d.compute('^', d.compute('^', "2", "3"), "2")));
  }

  lemma OneOperatorText(a: string, op: char, b: string)
    ensures var e := Bin(op, Lit(a), Lit(b));
      |Print(e)| > 0 && Print(e)[0] + Spaced1(Print(e)[1..]) == a + " " + [op] + " " + b
  {
    var e := Bin(op, Lit(a), Lit(b));
    assert Print(e) == [a, [op], b];
    assert Spaced1([b]) == " " + b + Spaced1([]);
    assert Spaced1([[op], b]) == " " + [op] + Spaced1([b]);
  }

  lemma DivisionByZero(d: Arithmetic)
    requires d.isZero("0")
    ensures Calculate(d, "5 / 0") == Fail(DIVISION_BY_ZERO)
  {
    OneOperatorText("5", '/', "0");
    assert "5" + " " + ['/'] + " " + "0" == "5 / 0";
    CalculateTree(d, Bin('/', Lit("5"), Lit("0")), "5 / 0", Fail(DIVISION_BY_ZERO));
  }

  lemma Remainder(d: Arithmetic)
    requires !d.isZero("3")
    ensures Calculate(d, "10 % 3") == Ok(d.compute('%', "10", "3"))
  {
    OneOperatorText("10", '%', "3");
    assert "10" + " " + ['%'] + " " + "3" == "10 % 3";
    CalculateTree(d, Bin('%', Lit("10"), Lit("3")), "10 % 3", Ok(d.compute('%', "10", "3")));
  }

  lemma UnclosedParenthesis(d: Arithmetic)
    ensures Calculate(d, "(1 + 2") == Fail(UNBALANCED)
  {
    var s := "(1 + 2";
    assert s == "(" + "1 + 2";
    ParenFreeBalanced("1 + 2");
    DepthAppend("(", "1 + 2");
    assert Depth("(") == Depth([]) + 1;
    assert !Balanced(s);
  }

  lemma InvalidCharacter(d: Arithmetic)
    ensures Calculate(d, "3 & 4") == Fail(INVALID_CHARACTER)
  {
    var s := "3 & 4";
    ParenFreeBalanced(s);
    InvalidAt(s, 0);
    assert !IsValid(s[2]);
  }

  /** An unbalanced text is rejected before its invalid characters are seen. */
  lemma UnbalancedBeforeInvalid(d: Arithmetic)
    ensures Calculate(d, ")&(") == Fail(UNBALANCED)
  {
    var s := ")&(";
    assert s[..1] == ")";
    assert Depth(")") == Depth([]) - 1;
    assert !Balanced(s);
  }

  /** A sign at index 0 gets its `"0"`. */
  lemma LeadingMinusTokens()
    ensures Tokenize("-1").Ok? && Tokenize("-1").value == [InjectedZero, Symbol('-'), Number("1")]
  {
    var s := "-1";
    ParenFreeBalanced(s);
    AtNumberChar(s, 1, []);
    assert [] + [s[1]] == "1";
    assert ScanFrom(s, 2, "1").Ok? && ScanFrom(s, 2, "1").value == [Number("1")];
    ScanAtSymbol(s, 0, []);
    assert Lead(s, 0) == [InjectedZero] && Trail(s, 0) == [];
  }

  /** A sign at index 0 gets its `"0"`. */
  lemma LeadingMinus(d: Arithmetic)
    ensures Calculate(d, "-1") == Ok(d.compute('-', "0", "1"))
  {
    var e := Bin('-', Lit("0"), Lit("1"));
    var ts := [InjectedZero, Symbol('-'), Number("1")];
    LeadingMinusTokens();
    assert Lexemes(ts) == ["0", "-", "1"] == Print(e);
    CalculatePrinted(d, "-1", ts, e);
  }

  lemma MinusAfterOpenTokens()
    ensures Tokenize("(-2)").Ok?
    ensures Tokenize("(-2)").value == [Symbol('('), InjectedZero, Symbol('-'), Number("2"), Symbol(')')]
  {
    var s := "(-2)";
    assert Balanced(s) by {
      assert s == "(" + "-2" + ")";
      ParenFreeBalanced("-2");
      BalancedWrap("-2");
    }
    ScanAtSymbol(s, 3, "2");
    assert ScanFrom(s, 3, "2").Ok? && ScanFrom(s, 3, "2").value == [Number("2"), Symbol(')')];
    AtNumberChar(s, 2, []);
    assert [] + [s[2]] == "2";
    ScanAtSymbol(s, 1, []);
    assert ScanFrom(s, 1, []).Ok? && ScanFrom(s, 1, []).value == [Symbol('-'), Number("2"), Symbol(')')];
    ScanAtSymbol(s, 0, []);
    assert Lead(s, 0) == [] && Trail(s, 0) == [InjectedZero];
  }

  lemma MinusAfterOpenPrint()
    ensures Print(Group(Bin('-', Lit("0"), Lit("2")))) == ["(", "0", "-", "2", ")"]
  {
    assert Print(Bin('-', Lit("0"), Lit("2"))) == ["0", "-", "2"];
  }

  /** A sign right after `(` gets its `"0"`. */
  lemma MinusAfterOpen(d: Arithmetic)
    ensures Calculate(d, "(-2)") == Ok(d.compute('-', "0", "2"))
  {
    var x := Bin('-', Lit("0"), Lit("2"));
    var ts := [Symbol('('), InjectedZero, Symbol('-'), Number("2"), Symbol(')')];
    MinusAfterOpenTokens();
    MinusAfterOpenPrint();
    assert Lexemes(ts) == ["(", "0", "-", "2", ")"] by {
      assert |Lexemes(ts)| == 5;
    }
    CalculatePrinted(d, "(-2)", ts, Group(x));
    assert Eval(d, x) == Ok(d.compute('-', "0", "2"));
  }

  lemma SpacedLeadingMinusTokens()
    ensures Tokenize(" -1").Ok? && Tokenize(" -1").value == [Symbol('-'), Number("1")]
  {
    var s := " -1";
    ParenFreeBalanced(s);
    AtNumberChar(s, 2, []);
    assert [] + [s[2]] == "1";
    assert ScanFrom(s, 3, "1").Ok? && ScanFrom(s, 3, "1").value == [Number("1")];
    ScanAtSymbol(s, 1, []);
    assert Lead(s, 1) == [] && Trail(s, 1) == [];
    AtSpace(s, 0, []);
  }

  /** `-`, `1`: the final loop reduces the `-` with a single operand. */
  lemma RunSpacedLeadingMinus(d: Arithmetic)
    ensures Run(d, ["-", "1"], State([], [])) == Ok(State(["1"], ['-']))
  {
    var st := State([], []);
    assert Step(d, st, "-") == Ok(State([], ['-']));
    assert Classify("1") == NumberToken;
    assert Step(d, State([], ['-']), "1") == Ok(State([] + ["1"], ['-']));
    assert [] + ["1"] == ["1"];
    assert ["-", "1"][1..] == ["1"] && ["1"][1..] == [];
  }

  /** A sign after a space at index 0 gets no `"0"`, and the subtraction has
      only one operand. */
  lemma SpacedLeadingMinus(d: Arithmetic)
    ensures Calculate(d, " -1") == Fail(ONE_OPERAND)
  {
    SpacedLeadingMinusTokens();
    CalculateFrom(d, " -1", [Symbol('-'), Number("1")], ["-", "1"]);
    EvaluateSpacedLeadingMinus(d);
  }

  lemma EvaluateSpacedLeadingMinus(d: Arithmetic)
    ensures Evaluate(d, ["-", "1"]) == Fail(ONE_OPERAND)
  {
    RunSpacedLeadingMinus(d);
    assert Drain(d, State(["1"], ['-'])) == Fail(ONE_OPERAND);
  }

  lemma SpacedMinusAfterOpenTokens()
    ensures Tokenize("( -1)").Ok?
    ensures Tokenize("( -1)").value == [Symbol('('), Symbol('-'), Number("1"), Symbol(')')]
  {
    var s := "( -1)";
    assert Balanced(s) by {
      assert s == "(" + " -1" + ")";
      ParenFreeBalanced(" -1");
      BalancedWrap(" -1");
    }
    assert Flush("1") == [Number("1")] && Flush([]) == [];
    ScanAtSymbol(s, 4, "1");
    assert ScanFrom(s, 4, "1").Ok? && ScanFrom(s, 4, "1").value == [Number("1"), Symbol(')')];
    AtNumberChar(s, 3, []);
    assert [] + [s[3]] == "1";
    ScanAtSymbol(s, 2, []);
    assert Lead(s, 2) == [] && Trail(s, 2) == [];
    AtSpace(s, 1, []);
    ScanAtSymbol(s, 0, []);
    assert Lead(s, 0) == [] && Trail(s, 0) == [];
  }

  /** One successful step of the token loop. */
  lemma RunOk(d: Arithmetic, ls: seq<string>, st: State, next: State)
    requires |ls| > 0 && Step(d, st, ls[0]) == Ok(next)
    ensures Run(d, ls, st) == Run(d, ls[1..], next)
  {
  }

  /** `(`, `-`, `1`, `)`: the `)` reduces the `-` with a single operand. */
  lemma RunSpacedMinusAfterOpen(d: Arithmetic)
    ensures Run(d, ["(", "-", "1", ")"], State([], [])) == Fail(ONE_OPERAND)
  {
    var ls := ["(", "-", "1", ")"];
    var st1 := State([], ['(']);
    var st2 := State([], ['(', '-']);
    var st3 := State(["1"], ['(', '-']);
    StepsSpacedMinusAfterOpen(d);
    assert ls[0] == "(" && ls[1..] == ["-", "1", ")"];
    RunOk(d, ls, State([], []), st1);
    RunOk(d, ["-", "1", ")"], st1, st2);
    assert ["-", "1", ")"][1..] == ["1", ")"];
    RunOk(d, ["1", ")"], st2, st3);
    assert ["1", ")"][1..] == [")"];
    assert Run(d, [")"], st3) == Fail(ONE_OPERAND);
  }

  lemma StepsSpacedMinusAfterOpen(d: Arithmetic)
    ensures Step(d, State([], []), "(") == Ok(State([], ['(']))
    ensures Step(d, State([], ['(']), "-") == Ok(State([], ['(', '-']))
    ensures Step(d, State([], ['(', '-']), "1") == Ok(State(["1"], ['(', '-']))
    ensures Step(d, State(["1"], ['(', '-']), ")") == Fail(ONE_OPERAND)
  {
    assert Classify("(") == OpenToken;
    assert [] + ['('] == ['('];
    assert Classify("-") == OperatorToken('-');
    assert HasPrecedence('(', '-') == Ok(false);
    assert ReduceWhile(d, State([], ['(']), BeforePush('-')) == Ok(State([], ['(']));
    assert ['('] + ['-'] == ['(', '-'];
    assert Classify("1") == NumberToken;
    assert [] + ["1"] == ["1"];
    CloseOverOneOperand(d);
  }

  lemma CloseOverOneOperand(d: Arithmetic)
    ensures Step(d, State(["1"], ['(', '-']), ")") == Fail(ONE_OPERAND)
  {
    var st := State(["1"], ['(', '-']);
    assert Classify(")") == CloseToken;
    assert Top(st.ops) == '-' && Continues(BeforeClose, '-') == Ok(true);
    assert Operate(d, st) == Fail(ONE_OPERAND);
    assert ReduceWhile(d, st, BeforeClose) == Fail(ONE_OPERAND);
  }

  /** The same after `(`: only the character right after `(` is looked at. */
  lemma SpacedMinusAfterOpen(d: Arithmetic)
    ensures Calculate(d, "( -1)") == Fail(ONE_OPERAND)
  {
    var ts := [Symbol('('), Symbol('-'), Number("1"), Symbol(')')];
    SpacedMinusAfterOpenTokens();
    assert Lexemes(ts) == ["(", "-", "1", ")"];
    CalculateFrom(d, "( -1)", ts, ["(", "-", "1", ")"]);
    RunSpacedMinusAfterOpen(d);
  }

  lemma SpaceInsideNumberTokens()
    ensures Tokenize("1 2").Ok? && Tokenize("1 2").value == [Number("12")]
  {
    var s := "1 2";
    ParenFreeBalanced(s);
    AtNumberChar(s, 0, []);
    assert [] + [s[0]] == "1";
    AtSpace(s, 1, "1");
    AtNumberChar(s, 2, "1");
    assert "1" + [s[2]] == "12";
  }

  /** Spaces inside a number are skipped: `1 2` is the number `12`. */
  lemma SpaceInsideNumber(d: Arithmetic)
    ensures Calculate(d, "1 2") == Ok("12")
  {
    SpaceInsideNumberTokens();
    assert Lexemes([Number("12")]) == ["12"] == Print(Lit("12"));
    CalculatePrinted(d, "1 2", [Number("12")], Lit("12"));
  }

  lemma NumberBeforeGroupTokens()
    ensures Tokenize("2(3+1)").Ok?
    ensures Tokenize("2(3+1)").value == [Number("2"), Symbol('('), Number("3"), Symbol('+'), Number("1"), Symbol(')')]
  {
    NumberBeforeGroupBalanced();
    NumberBeforeGroupScan();
    assert CheckParenthesis("2(3+1)").Ok?;
  }

  lemma NumberBeforeGroupScan()
    ensures ScanFrom("2(3+1)", 0, []) == Ok([Number("2"), Symbol('('), Number("3"), Symbol('+'), Number("1"), Symbol(')')])
  {
    var s := "2(3+1)";
    NumberBeforeGroupOpen();
    AtNumberChar(s, 0, []);
    assert [] + [s[0]] == "2";
    assert [Number("2"), Symbol('(')] + [Number("3"), Symbol('+'), Number("1"), Symbol(')')]
        == [Number("2"), Symbol('('), Number("3"), Symbol('+'), Number("1"), Symbol(')')];
  }

  /** At the `(`: the pending `2` is flushed before it. */
  lemma NumberBeforeGroupOpen()
    ensures ScanFrom("2(3+1)", 1, "2")
         == Ok([Number("2"), Symbol('(')] + [Number("3"), Symbol('+'), Number("1"), Symbol(')')])
  {
    var s := "2(3+1)";
    var tail := [Number("3"), Symbol('+'), Number("1"), Symbol(')')];
    NumberBeforeGroupInside();
    assert Flush("2") == [Number("2")];
    ScanAtSymbol(s, 1, "2");
    assert Lead(s, 1) == [] && Trail(s, 1) == [];
    assert [] + Flush("2") + [Symbol('(')] + [] + tail == [Number("2"), Symbol('(')] + tail;
  }

  /** Inside the group, from the `3`. */
  lemma NumberBeforeGroupInside()
    ensures ScanFrom("2(3+1)", 2, []) == Ok([Number("3"), Symbol('+'), Number("1"), Symbol(')')])
  {
    var s := "2(3+1)";
    NumberBeforeGroupTail();
    AtNumberChar(s, 2, []);
    assert [] + [s[2]] == "3";
  }

  lemma NumberBeforeGroupBalanced()
    ensures Balanced("2(3+1)")
  {
    assert "2(3+1)" == "2" + ("(" + "3+1" + ")");
    ParenFreeBalanced("3+1");
    BalancedWrap("3+1");
    ParenFreeBalanced("2");
    BalancedAppend("2", "(" + "3+1" + ")");
  }

  lemma NumberBeforeGroupTail()
    ensures ScanFrom("2(3+1)", 3, "3").Ok?
    ensures ScanFrom("2(3+1)", 3, "3").value == [Number("3"), Symbol('+'), Number("1"), Symbol(')')]
  {
    var s := "2(3+1)";
    assert Flush("1") == [Number("1")] && Flush("3") == [Number("3")];
    ScanAtSymbol(s, 5, "1");
    assert ScanFrom(s, 5, "1").Ok? && ScanFrom(s, 5, "1").value == [Number("1"), Symbol(')')];
    AtNumberChar(s, 4, []);
    assert [] + [s[4]] == "1";
    ScanAtSymbol(s, 3, "3");
    assert Lead(s, 3) == [] && Trail(s, 3) == [];
    assert ScanFrom(s, 3, "3").Ok? && ScanFrom(s, 3, "3").value == [Number("3"), Symbol('+'), Number("1"), Symbol(')')];
  }

  /** `2`, then a group: the group's value lands above the `2`. */
  lemma RunNumberBeforeGroup(d: Arithmetic)
    ensures Run(d, ["2"] + Print(Group(Bin('+', Lit("3"), Lit("1")))), State([], []))
         == PushValue(Ok(d.compute('+', "3", "1")), State(["2"], []))
  {
    var x := Bin('+', Lit("3"), Lit("1"));
    var st := State([], []);
    assert Classify("2") == NumberToken && ["2"][1..] == [];
    assert Run(d, ["2"], st) == Ok(State([] + ["2"], []));
    assert [] + ["2"] == ["2"];
    RunAppend(d, ["2"], Print(Group(x)), st);
    RunBracket(d, x, State(["2"], []));
    assert Eval(d, x) == ApplyOperator(d, "3", "1", '+');
  }

  /** A number before `(` is left on the operand stack below the group's
      value, which is what `calculate` returns. */
  lemma NumberBeforeGroup(d: Arithmetic)
    ensures Calculate(d, "2(3+1)") == Ok(d.compute('+', "3", "1"))
  {
    var ts := [Number("2"), Symbol('('), Number("3"), Symbol('+'), Number("1"), Symbol(')')];
    var ls := ["2", "(", "3", "+", "1", ")"];
    NumberBeforeGroupTokens();
    assert Lexemes(ts) == ls by {
      assert |Lexemes(ts)| == 6;
    }
    CalculateFrom(d, "2(3+1)", ts, ls);
    EvaluateNumberBeforeGroup(d);
  }

  lemma EvaluateNumberBeforeGroup(d: Arithmetic)
    ensures Evaluate(d, ["2", "(", "3", "+", "1", ")"]) == Ok(d.compute('+', "3", "1"))
  {
    var x := Bin('+', Lit("3"), Lit("1"));
    assert Print(x) == ["3", "+", "1"];
    assert ["2"] + Print(Group(x)) == ["2", "(", "3", "+", "1", ")"];
    RunNumberBeforeGroup(d);
    var v := d.compute('+', "3", "1");
    assert Drain(d, State(["2"] + [v], [])) == Ok(State(["2"] + [v], []));
  }
}
