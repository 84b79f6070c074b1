/** Expression trees as a reference semantics for the shunting-yard loop:
    printing a tree and evaluating the printed tokens gives the tree's value,
    which states precedence, left associativity and the neutrality of
    redundant parentheses for every expression at once. */
module Trees {
  import opened Results
  import opened Lexical
  import opened Precedence
  import opened Numeric
  import opened Machine
  import opened MachineFacts

  datatype Expr = Lit(text: string) | Bin(op: char, left: Expr, right: Expr) | Group(inner: Expr)

  /** A number literal: a digit, then digits and points. */
  predicate IsNumeral(s: string) {
    |s| > 0 && IsDigit(s[0]) && forall k :: 0 <= k < |s| ==> IsNumberChar(s[k])
  }

  predicate WellFormed(e: Expr) {
    match e
    case Lit(s) => IsNumeral(s)
    case Bin(op, l, r) => IsOperator(op) && WellFormed(l) && WellFormed(r)
    case Group(x) => WellFormed(x)
  }

  /** How tightly the root of a tree binds: its operator's rank, above every
      operator for a literal or a parenthesised group. */
  function Strength(e: Expr): int {
    match e
    case Bin(op, _, _) => Rank(op)
    case _ => 4
  }

  /** The value of a tree, operands left before right, with the errors of
      `applyOperator`. */
  function Eval(d: Arithmetic, e: Expr): Result<string> {
    match e
    case Lit(s) => Ok(s)
    case Group(x) => Eval(d, x)
    case Bin(op, l, r) =>
      var a :- Eval(d, l);
      var b :- Eval(d, r);
      ApplyOperator(d, a, b, op)
  }

  function Bracket(ts: seq<string>, needed: bool): seq<string> {
    if needed then ["("] + ts + [")"] else ts
  }

  /** The tokens of a tree with the parentheses a reader of infix notation
      needs under left associativity: a left operand is bracketed when it binds
      more loosely than its operator, a right operand unless it binds more
      tightly. A `Group` is always bracketed. */
  function Print(e: Expr): seq<string> {
    match e
    case Lit(s) => [s]
    case Group(x) => Bracket(Print(x), true)
    case Bin(op, l, r) =>
      Bracket(Print(l), Strength(l) < Rank(op)) + [[op]] + Bracket(Print(r), Strength(r) <= Rank(op))
  }

  /** The operator just below a subexpression binds more loosely than every
      operator the subexpression leaves pending, or it is `(`, or there is none. */
  predicate Shielded(ops: seq<char>, k: int) {
    |ops| == 0 || Top(ops) == '(' || (IsOperator(Top(ops)) && Rank(Top(ops)) < k)
  }

  /** The reduction loop `m` reduces every operator of rank `k` or more. */
  predicate Reaches(m: Reduction, k: int) {
    match m
    case BeforePush(t) => IsOperator(t) && Rank(t) <= k
    case BeforeClose => true
    case FinalDrain => true
  }

  /** Runs the reduction loop `m` after a partial run. */
  function ThenReduce(d: Arithmetic, r: Result<State>, m: Reduction): Result<State> {
    match r
    case Ok(s) => ReduceWhile(d, s, m)
    case Fail(c) => Fail(c)
  }

  /** Pushes a computed value, then runs the reduction loop `m`. */
  function PushThenReduce(d: Arithmetic, v: Result<string>, st: State, m: Reduction): Result<State> {
    match v
    case Ok(x) => ReduceWhile(d, State(st.nums + [x], st.ops), m)
    case Fail(c) => Fail(c)
  }

  /** Pushes a computed value. */
  function PushValue(v: Result<string>, st: State): Result<State> {
    match v
    case Ok(x) => Ok(State(st.nums + [x], st.ops))
    case Fail(c) => Fail(c)
  }

  lemma StopsWhenShielded(d: Arithmetic, st: State, op: char)
    requires IsOperator(op) && Shielded(st.ops, Rank(op))
    ensures ReduceWhile(d, st, BeforePush(op)) == Ok(st)
  {
  }

  lemma StopsAtOpen(d: Arithmetic, st: State)
    requires |st.ops| > 0 && Top(st.ops) == '('
    ensures ReduceWhile(d, st, BeforeClose) == Ok(st)
  {
  }

  /** A `)` over stacks that its loop reduces as it would `st` with `(` on
      top pops just that `(`. */
  lemma CloseAfterOpen(d: Arithmetic, s: State, st: State)
    requires |st.ops| > 0 && Top(st.ops) == '('
    requires ReduceWhile(d, s, BeforeClose) == ReduceWhile(d, st, BeforeClose)
    ensures CloseParen(d, s) == Ok(State(st.nums, Pop(st.ops)))
  {
    StopsAtOpen(d, st);
  }

  /** Processing the tokens of a subexpression `e` leaves stacks that the
      reduction loops reduce exactly as if the value of `e` had been pushed in
      one go — or fails with the first error of `e`'s evaluation. */
  lemma {:induction false} RunPrint(d: Arithmetic, e: Expr, st: State, m: Reduction)
    requires WellFormed(e) && Shielded(st.ops, Strength(e)) && Reaches(m, Strength(e))
    ensures ThenReduce(d, Run(d, Print(e), st), m) == PushThenReduce(d, Eval(d, e), st, m)
    decreases e, 2
  {
    match e
    case Lit(s) =>
      assert Classify(s).NumberToken?;
      assert Print(e)[1..] == [];
      assert Run(d, Print(e), st) == Ok(State(st.nums + [s], st.ops));
    case Group(x) =>
      RunBracket(d, x, st);
    case Bin(op, l, r) =>
      RunPrintBin(d, op, l, r, st, m);
  }

  /** `RunPrint` for a tree whose root is an operator. */
  lemma {:induction false} RunPrintBin(d: Arithmetic, op: char, l: Expr, r: Expr, st: State, m: Reduction)
    requires WellFormed(Bin(op, l, r)) && Shielded(st.ops, Rank(op)) && Reaches(m, Rank(op))
    ensures ThenReduce(d, Run(d, Print(Bin(op, l, r)), st), m) == PushThenReduce(d, Eval(d, Bin(op, l, r)), st, m)
    decreases Bin(op, l, r), 1
  {
    var left := Bracket(Print(l), Strength(l) < Rank(op));
    var right := Bracket(Print(r), Strength(r) <= Rank(op));
    assert Print(Bin(op, l, r)) == left + ([[op]] + right);
    LeftOperand(d, op, l, right, st);
    match Eval(d, l) {
      case Fail(c) =>
        assert Eval(d, Bin(op, l, r)) == Fail(c);
      case Ok(a) =>
        RightOfBin(d, op, l, r, a, st, m);
    }
  }

  /** The rest of `RunPrintBin` once the left operand has produced `a`. */
  lemma {:induction false} RightOfBin(d: Arithmetic, op: char, l: Expr, r: Expr, a: string, st: State, m: Reduction)
    requires WellFormed(Bin(op, l, r)) && Reaches(m, Rank(op)) && Eval(d, l) == Ok(a)
    ensures ThenReduce(d, Run(d, Bracket(Print(r), Strength(r) <= Rank(op)), State(st.nums + [a], st.ops + [op])), m)
         == PushThenReduce(d, Eval(d, Bin(op, l, r)), st, m)
    decreases Bin(op, l, r), 0
  {
    RightOperand(d, op, a, r, st, m);
    match Eval(d, r) {
      case Fail(c) =>
        assert Eval(d, Bin(op, l, r)) == Fail(c);
      case Ok(b) =>
        assert Eval(d, Bin(op, l, r)) == ApplyOperator(d, a, b, op);
    }
  }

  /** The left operand and the operator: the stacks hold the left value and
      the operator on top of the context, or the left operand's error. */
  lemma {:induction false} LeftOperand(d: Arithmetic, op: char, l: Expr, right: seq<string>, st: State)
    requires WellFormed(l) && IsOperator(op) && Shielded(st.ops, Rank(op))
    ensures Run(d, Bracket(Print(l), Strength(l) < Rank(op)) + ([[op]] + right), st)
         == match Eval(d, l) {
              case Fail(c) => Fail(c)
              case Ok(a) => Run(d, right, State(st.nums + [a], st.ops + [op]))
            }
    decreases l, 5
  {
    var left := Bracket(Print(l), Strength(l) < Rank(op));
    RunAppend(d, left, [[op]] + right, st);
    RunSide(d, l, Rank(op), st, BeforePush(op));
    OperatorAfter(d, Run(d, left, st), Eval(d, l), op, right, st);
  }

  /** The operator token after a run that its loop reduces as if `v` had been
      pushed over shielded stacks: `v` ends up below the operator, or the run
      fails with `v`'s error. */
  lemma OperatorAfter(d: Arithmetic, r: Result<State>, v: Result<string>, op: char, right: seq<string>, st: State)
    requires IsOperator(op) && Shielded(st.ops, Rank(op))
    requires ThenReduce(d, r, BeforePush(op)) == PushThenReduce(d, v, st, BeforePush(op))
    ensures Then(d, r, [[op]] + right)
         == if v.Fail? then Fail(v.code) else Run(d, right, State(st.nums + [v.value], st.ops + [op]))
  {
    var tail := [[op]] + right;
    assert tail[0] == [op] && tail[1..] == right;
    assert Classify([op]) == OperatorToken(op);
    match v {
      case Fail(code) =>
        if r.Ok? {
          assert Run(d, tail, r.value) == Fail(code);
        }
      case Ok(x) =>
        var st1 := State(st.nums + [x], st.ops);
        StopsWhenShielded(d, st1, op);
        assert Step(d, r.value, [op]) == Ok(State(st1.nums, st1.ops + [op]));
    }
  }

  /** The right operand over the stacks `LeftOperand` leaves, then the loop `m`,
      which reduces the operator. */
  lemma {:induction false} RightOperand(d: Arithmetic, op: char, a: string, r: Expr, st: State, m: Reduction)
    requires WellFormed(r) && IsOperator(op) && Reaches(m, Rank(op))
    ensures ThenReduce(d, Run(d, Bracket(Print(r), Strength(r) <= Rank(op)), State(st.nums + [a], st.ops + [op])), m)
         == match Eval(d, r) {
              case Fail(c) => Fail(c)
              case Ok(b) => PushThenReduce(d, ApplyOperator(d, a, b, op), st, m)
            }
    decreases r, 5
  {
    var st2 := State(st.nums + [a], st.ops + [op]);
    RunSide(d, r, Rank(op) + 1, st2, m);
    assert Bracket(Print(r), Strength(r) <= Rank(op)) == Bracket(Print(r), Strength(r) < Rank(op) + 1);
    match Eval(d, r) {
      case Fail(c) =>
      case Ok(b) =>
        ReduceTop(d, st, a, b, op, m);
    }
  }

  /** The loop `m` reduces an operator it reaches on top of two operands. */
  lemma ReduceTop(d: Arithmetic, st: State, a: string, b: string, op: char, m: Reduction)
    requires IsOperator(op) && Reaches(m, Rank(op))
    ensures ReduceWhile(d, State(st.nums + [a] + [b], st.ops + [op]), m) == PushThenReduce(d, ApplyOperator(d, a, b, op), st, m)
  {
    var st3 := State(st.nums + [a] + [b], st.ops + [op]);
    assert Continues(m, op) == Ok(true);
    assert st3.nums[|st3.nums| - 2] == a && Top(st3.nums) == b;
    assert Pop(Pop(st3.nums)) == st.nums && Pop(st3.ops) == st.ops;
    match ApplyOperator(d, a, b, op) {
      case Fail(c) =>
        assert Operate(d, st3) == Fail(c);
      case Ok(v) =>
        assert Operate(d, st3) == Ok(State(st.nums + [v], st.ops));
    }
  }

  /** A subexpression printed as the operand of an operator of rank `k - 1`
      (right operand) or `k` (left operand). */
  lemma {:induction false} RunSide(d: Arithmetic, e: Expr, k: int, st: State, m: Reduction)
    requires WellFormed(e) && Shielded(st.ops, k) && Reaches(m, k)
    ensures ThenReduce(d, Run(d, Bracket(Print(e), Strength(e) < k), st), m) == PushThenReduce(d, Eval(d, e), st, m)
    decreases e, 4
  {
    if Strength(e) < k {
      RunBracket(d, e, st);
    } else {
      RunPrint(d, e, st, m);
    }
  }

  /** A bracketed subexpression pushes exactly its value. */
  lemma {:induction false} RunBracket(d: Arithmetic, e: Expr, st: State)
    requires WellFormed(e)
    ensures Run(d, Bracket(Print(e), true), st) == PushValue(Eval(d, e), st)
    decreases e, 3
  {
    var st1 := State(st.nums, st.ops + ['(']);
    BracketTokens(d, Print(e), st);
    RunPrint(d, e, st1, BeforeClose);
    CloseBracket(d, Run(d, Print(e), st1), Eval(d, e), st);
  }

  /** The loop over `( ts )`: push `(`, run `ts`, then the `)`. */
  lemma BracketTokens(d: Arithmetic, ts: seq<string>, st: State)
    ensures Run(d, Bracket(ts, true), st) == Then(d, Run(d, ts, State(st.nums, st.ops + ['('])), [")"])
  {
    var st1 := State(st.nums, st.ops + ['(']);
    var all := ["("] + (ts + [")"]);
    assert Bracket(ts, true) == all;
    assert all[0] == "(" && all[1..] == ts + [")"];
    assert Run(d, all, st) == Run(d, ts + [")"], st1);
    RunAppend(d, ts, [")"], st1);
  }

  /** The `)` after a run that its loop reduces as if `v` had been pushed over
      `(`: it leaves exactly `v` pushed, or fails with `v`'s error. */
  lemma CloseBracket(d: Arithmetic, r: Result<State>, v: Result<string>, st: State)
    requires ThenReduce(d, r, BeforeClose) == PushThenReduce(d, v, State(st.nums, st.ops + ['(']), BeforeClose)
    ensures Then(d, r, [")"]) == PushValue(v, st)
  {
    var st1 := State(st.nums, st.ops + ['(']);
    if v.Ok? {
      var st2 := State(st.nums + [v.value], st1.ops);
      StopsAtOpen(d, st2);
      if r.Ok? {
        assert [")"][1..] == [];
        assert Run(d, [")"], r.value) == CloseParen(d, r.value);
        CloseAfterOpen(d, r.value, st2);
        assert Pop(st2.ops) == st.ops;
      }
    } else if r.Ok? {
      assert [")"][1..] == [];
      assert Run(d, [")"], r.value) == CloseParen(d, r.value);
    }
  }

  /** Evaluating the printed tokens of any well-formed tree from empty stacks
      gives the tree's value, or its first error. */
  lemma EvaluatePrint(d: Arithmetic, e: Expr)
    requires WellFormed(e)
    ensures Evaluate(d, Print(e)) == Eval(d, e)
  {
    var st := State([], []);
    RunPrint(d, e, st, FinalDrain);
    match Eval(d, e)
    case Fail(c) =>
    case Ok(v) =>
      assert ReduceWhile(d, State([v], []), FinalDrain) == Ok(State([v], []));
  }
}
