/** The shunting-yard driver (`calculate`) and its reduction step (`operate`). */
module Machine {
  import opened Results
  import opened Lexical
  import opened Parens
  import opened Tokenizer
  import opened Precedence
  import opened Numeric

  /** The operand stack and the operator stack of one `calculate` call, tops at
      the end. Both start empty: the C++ code resets them on entry. */
  datatype State = State(nums: seq<string>, ops: seq<char>)

  function Top<T>(s: seq<T>): T
    requires |s| > 0
  {
    s[|s| - 1]
  }

  function Pop<T>(s: seq<T>): seq<T>
    requires |s| > 0
  {
    s[..|s| - 1]
  }

  /** The codes a reduction can throw. */
  predicate ReductionCode(c: int) {
    c == NO_OPERANDS || c == ONE_OPERAND || c == DIVISION_BY_ZERO || c == UNKNOWN_OPERATOR
  }

  /** `operate`: pops the top operator, then the right and the left operand,
      and pushes the result of applying the operator to them. */
  function Operate(d: Arithmetic, st: State): (r: Result<State>)
    requires |st.ops| > 0
    ensures |st.nums| == 0 ==> r == Fail(NO_OPERANDS)
    ensures |st.nums| == 1 ==> r == Fail(ONE_OPERAND)
    ensures |st.nums| >= 2 ==>
      var a, b := st.nums[|st.nums| - 2], Top(st.nums);
      && (r.Fail? <==> ApplyOperator(d, a, b, Top(st.ops)).Fail?)
      && (r.Fail? ==> r.code == ApplyOperator(d, a, b, Top(st.ops)).code)
      && (r.Ok? ==>
            && r.value.ops == Pop(st.ops)
            && |r.value.nums| == |st.nums| - 1
            && r.value.nums[..|st.nums| - 2] == st.nums[..|st.nums| - 2]
            && Top(r.value.nums) == d.compute(Top(st.ops), a, b))
    ensures r.Fail? ==> ReductionCode(r.code)
  {
    var op := Top(st.ops);
    var ops := Pop(st.ops);
    if |st.nums| == 0 then Fail(NO_OPERANDS)
    else
      var b := Top(st.nums);
      var nums := Pop(st.nums);
      if |nums| == 0 then Fail(ONE_OPERAND)
      else
        var a := Top(nums);
        var res :- ApplyOperator(d, a, b, op);
        Ok(State(Pop(nums) + [res], ops))
  }

  /** Which of the three reduction loops of `calculate` runs: before pushing an
      operator token, on a `)` token, or after the last token. */
  datatype Reduction = BeforePush(token: char) | BeforeClose | FinalDrain

  /** The loop condition, beyond "the operator stack is not empty". */
  function Continues(m: Reduction, top: char): (r: Result<bool>)
    ensures r.Fail? ==> r.code == UNKNOWN_PRECEDENCE
  {
    match m
    case BeforePush(t) => HasPrecedence(top, t)
    case BeforeClose => Ok(top != '(')
    case FinalDrain => Ok(true)
  }

  /** When each loop test fails and when it stops its loop: only the operator
      loop's test fails, on a character the table does not know; the `)` loop
      stops at `(`, the operator loop at a top ranked below the new operator,
      and the final loop never stops on its own. */
  lemma ContinuesCases(m: Reduction, top: char)
    ensures Continues(m, top).Fail? <==> m.BeforePush? && !(IsSymbol(top) && IsSymbol(m.token))
    ensures Continues(m, top) == Ok(false) <==>
      || (m.BeforeClose? && top == '(')
      || (m.BeforePush? && IsSymbol(top) && IsSymbol(m.token) && Rank(top) < Rank(m.token))
  { }

  /** Reduces while the operator stack is not empty and the loop condition
      holds of its top. On success, it has popped a suffix of the operator
      stack, each popped operator satisfying the condition when it was on top,
      and one operand per popped operator; it stopped at an empty stack or at
      a top the condition rejects. */
  function ReduceWhile(d: Arithmetic, st: State, m: Reduction): (r: Result<State>)
    ensures r.Ok? ==>
      var s := r.value;
      && |s.ops| <= |st.ops|
      && s.ops == st.ops[..|s.ops|]
      && |s.nums| + |st.ops| == |st.nums| + |s.ops|
      && (|s.ops| == |st.ops| ==> s == st)
      && (|s.ops| == 0 || Continues(m, Top(s.ops)) == Ok(false))
      && (forall k :: |s.ops| <= k < |st.ops| ==> Continues(m, st.ops[k]) == Ok(true))
    ensures r.Fail? ==> ReductionCode(r.code) || (m.BeforePush? && r.code == UNKNOWN_PRECEDENCE)
    decreases |st.ops|
  {
    if |st.ops| == 0 then Ok(st)
    else
      var go :- Continues(m, Top(st.ops));
      if !go then Ok(st)
      else
        var next :- Operate(d, st);
        ReduceWhile(d, next, m)
  }

  /** A reduction loop that pops something leaves at least one operand, and
      every operand below its new top is one that was there before. */
  lemma {:induction false} ReduceKeepsBelow(d: Arithmetic, st: State, m: Reduction)
    requires ReduceWhile(d, st, m).Ok?
    ensures var s := ReduceWhile(d, st, m).value;
      |s.ops| < |st.ops| ==> |s.nums| >= 1 && s.nums[..|s.nums| - 1] == st.nums[..|s.nums| - 1]
    decreases |st.ops|
  {
    if |st.ops| > 0 && Continues(m, Top(st.ops)) == Ok(true) {
      var next := ReduceOnce(d, st, m);
      ReduceKeepsBelow(d, next, m);
      KeepsBelowStep(st, next, ReduceWhile(d, next, m).value);
    } else {
      ReduceStops(d, st, m);
    }
  }

  /** A loop whose test does not let it go on returns the state unchanged. */
  lemma ReduceStops(d: Arithmetic, st: State, m: Reduction)
    requires ReduceWhile(d, st, m).Ok? && !(|st.ops| > 0 && Continues(m, Top(st.ops)) == Ok(true))
    ensures ReduceWhile(d, st, m) == Ok(st)
  {
  }

  /** One `operate` from `st` to `next`, then the rest of the loop from `next`
      to `s`: the operands below the final top were below it in `st`. */
  lemma KeepsBelowStep(st: State, next: State, s: State)
    requires |st.nums| >= 2 && |next.nums| == |st.nums| - 1
    requires next.nums[..|st.nums| - 2] == st.nums[..|st.nums| - 2]
    requires |s.ops| <= |next.ops| && |s.nums| <= |next.nums|
    requires |s.ops| == |next.ops| ==> s == next
    requires |s.ops| < |next.ops| ==> |s.nums| >= 1 && s.nums[..|s.nums| - 1] == next.nums[..|s.nums| - 1]
    ensures |s.nums| >= 1 && s.nums[..|s.nums| - 1] == st.nums[..|s.nums| - 1]
  {
    if |s.ops| < |next.ops| {
      PrefixWithin(s.nums, next.nums, st.nums, |s.nums| - 1, |st.nums| - 2);
    }
  }

  /** The state after the first `operate` of a reduction loop that goes on. */
  lemma ReduceOnce(d: Arithmetic, st: State, m: Reduction) returns (next: State)
    requires ReduceWhile(d, st, m).Ok? && |st.ops| > 0 && Continues(m, Top(st.ops)) == Ok(true)
    ensures ReduceWhile(d, next, m) == ReduceWhile(d, st, m)
    ensures |next.ops| == |st.ops| - 1
    ensures |st.nums| >= 2 && |next.nums| == |st.nums| - 1
    ensures next.nums[..|st.nums| - 2] == st.nums[..|st.nums| - 2]
  {
    next := Operate(d, st).value;
  }

  /** `a` agrees with `b` up to `i`, and `b` with `c` up to `j >= i`. */
  lemma PrefixWithin(a: seq<string>, b: seq<string>, c: seq<string>, i: nat, j: nat)
    requires i <= j <= |b| && i <= |a| && j <= |c|
    requires a[..i] == b[..i] && b[..j] == c[..j]
    ensures a[..i] == c[..i]
  {
    assert b[..i] == b[..j][..i];
    assert c[..i] == c[..j][..i];
  }

  /** The operator branch of `calculate`: reduce while the top binds at least as
      tightly as `op`, then push `op`. Each popped operator used up one operand,
      and the operands below the new top are untouched. */
  function PushOperator(d: Arithmetic, st: State, op: char): (r: Result<State>)
    ensures r.Ok? ==>
      var s := r.value;
      && |s.ops| > 0 && Top(s.ops) == op
      && var below := Pop(s.ops);
      && |below| <= |st.ops|
      && below == st.ops[..|below|]
      && (|below| == 0 || HasPrecedence(Top(below), op) == Ok(false))
      && (forall k :: |below| <= k < |st.ops| ==> HasPrecedence(st.ops[k], op) == Ok(true))
      && |s.nums| + |st.ops| == |st.nums| + |s.ops| - 1
      && (|below| == |st.ops| ==> s.nums == st.nums)
      && (|below| < |st.ops| ==> |s.nums| >= 1 && s.nums[..|s.nums| - 1] == st.nums[..|s.nums| - 1])
    ensures r.Fail? ==> ReductionCode(r.code) || r.code == UNKNOWN_PRECEDENCE
  {
    var s :- ReduceWhile(d, st, BeforePush(op));
    ReduceKeepsBelow(d, st, BeforePush(op));
    Ok(State(s.nums, s.ops + [op]))
  }

  /** The `)` branch of `calculate`: reduce down to the nearest `(` and pop
      exactly that `(`; throw 1 when the reductions empty the operator stack
      without meeting one. Each popped operator other than the `(` used up one
      operand, and the operands below the new top are untouched. */
  function CloseParen(d: Arithmetic, st: State): (r: Result<State>)
    ensures r.Ok? ==>
      var j := |r.value.ops|;
      && j < |st.ops| && st.ops[j] == '('
      && r.value.ops == st.ops[..j]
      && (forall k :: j < k < |st.ops| ==> st.ops[k] != '(')
      && |r.value.nums| + |st.ops| == |st.nums| + j + 1
      && (j + 1 == |st.ops| ==> r.value.nums == st.nums)
      && (j + 1 < |st.ops| ==>
            |r.value.nums| >= 1 && r.value.nums[..|r.value.nums| - 1] == st.nums[..|r.value.nums| - 1])
    ensures '(' !in st.ops ==> r.Fail?
    ensures '(' !in st.ops && ReduceWhile(d, st, BeforeClose).Ok? ==> r == Fail(UNMATCHED_CLOSE)
    ensures r == Fail(UNMATCHED_CLOSE) ==> '(' !in st.ops
    ensures r.Fail? ==> r.code == UNMATCHED_CLOSE || ReductionCode(r.code)
  {
    var s :- ReduceWhile(d, st, BeforeClose);
    ReduceKeepsBelow(d, st, BeforeClose);
    if |s.ops| == 0 then Fail(UNMATCHED_CLOSE)
    else Ok(State(s.nums, Pop(s.ops)))
  }

  /** How `calculate` treats a token. */
  datatype Kind = NumberToken | OpenToken | CloseToken | OperatorToken(op: char)

  /** A token is a number when it is longer than one character or its first
      character is a digit. The first character of an empty token is the
      terminating `'\0'` of a C++ string. */
  function Classify(t: string): (k: Kind)
    ensures k.NumberToken? <==> |t| > 1 || (|t| == 1 && IsDigit(t[0]))
    ensures k.OpenToken? <==> t == "("
    ensures k.CloseToken? <==> t == ")"
    ensures k.OperatorToken? ==> k.op != '(' && k.op != ')' && |t| <= 1 && (|t| == 1 ==> t == [k.op])
  {
    if |t| > 1 || (|t| > 0 && IsDigit(t[0])) then NumberToken
    else if t == "(" then OpenToken
    else if t == ")" then CloseToken
    else OperatorToken(if |t| == 0 then '\0' else t[0])
  }

  /** The codes the token loop can throw. */
  predicate LoopCode(c: int) {
    c == UNMATCHED_CLOSE || c == UNKNOWN_PRECEDENCE || ReductionCode(c)
  }

  /** One iteration of the token loop of `calculate`. */
  function Step(d: Arithmetic, st: State, token: string): (r: Result<State>)
    ensures r.Fail? ==> LoopCode(r.code)
    ensures r.Ok? && ')' !in st.ops ==> ')' !in r.value.ops
    ensures Classify(token).NumberToken? ==> r == Ok(State(st.nums + [token], st.ops))
    ensures Classify(token).OpenToken? ==> r == Ok(State(st.nums, st.ops + ['(']))
  {
    match Classify(token)
    case NumberToken => Ok(State(st.nums + [token], st.ops))
    case OpenToken => Ok(State(st.nums, st.ops + ['(']))
    case CloseToken => CloseParen(d, st)
    case OperatorToken(op) => PushOperator(d, st, op)
  }

  /** The token loop of `calculate`. `)` never reaches the operator stack. */
  function Run(d: Arithmetic, tokens: seq<string>, st: State): (r: Result<State>)
    ensures r.Ok? && ')' !in st.ops ==> ')' !in r.value.ops
    ensures r.Fail? ==> LoopCode(r.code)
    decreases |tokens|
  {
    if |tokens| == 0 then Ok(st)
    else
      var next :- Step(d, st, tokens[0]);
      Run(d, tokens[1..], next)
  }

  /** The final loop of `calculate`: reduce until the operator stack is empty,
      using up one operand per operator. */
  function Drain(d: Arithmetic, st: State): (r: Result<State>)
    ensures r.Ok? ==> |r.value.ops| == 0 && |r.value.nums| + |st.ops| == |st.nums|
  {
    ReduceWhile(d, st, FinalDrain)
  }

  /** `calculate` after tokenizing: run the token loop from empty stacks, drain,
      and return the top of the operand stack. */
  function Evaluate(d: Arithmetic, tokens: seq<string>): (r: Result<string>)
    ensures r.Fail? ==> r.code == EMPTY_RESULT || LoopCode(r.code)
    ensures r == Fail(EMPTY_RESULT) <==>
      && NoNumbers(tokens)
      && Run(d, tokens, State([], [])).Ok?
      && Drain(d, Run(d, tokens, State([], [])).value).Ok?
  {
    var st :- Run(d, tokens, State([], []));
    var fin :- Drain(d, st);
    RunOperands(d, tokens, State([], []));
    ReduceOperands(d, st, FinalDrain);
    if |fin.nums| == 0 then Fail(EMPTY_RESULT) else Ok(Top(fin.nums))
  }

  /** No token is taken as a number. */
  predicate NoNumbers(tokens: seq<string>) {
    forall k :: 0 <= k < |tokens| ==> !Classify(tokens[k]).NumberToken?
  }

  /** A successful reduction leaves the operand stack empty exactly when it
      was empty: with no operand nothing is reduced, and each reduction
      leaves one operand. */
  lemma {:induction false} ReduceOperands(d: Arithmetic, st: State, m: Reduction)
    requires ReduceWhile(d, st, m).Ok?
    ensures |ReduceWhile(d, st, m).value.nums| == 0 <==> |st.nums| == 0
    decreases |st.ops|
  {
    if |st.ops| > 0 && Continues(m, Top(st.ops)) == Ok(true) {
      var next := Operate(d, st).value;
      ReduceOperands(d, next, m);
    }
  }

  /** One successful token leaves the operand stack empty exactly when it was
      empty and the token is not a number. */
  lemma StepOperands(d: Arithmetic, st: State, t: string)
    requires Step(d, st, t).Ok?
    ensures |Step(d, st, t).value.nums| == 0 <==> |st.nums| == 0 && !Classify(t).NumberToken?
  {
    match Classify(t)
    case NumberToken =>
    case OpenToken =>
    case CloseToken =>
      ReduceOperands(d, st, BeforeClose);
    case OperatorToken(op) =>
      ReduceOperands(d, st, BeforePush(op));
  }

  /** A successful token loop ends with no operand exactly when it started
      with none and no token is a number. */
  lemma {:induction false} RunOperands(d: Arithmetic, tokens: seq<string>, st: State)
    requires Run(d, tokens, st).Ok?
    ensures |Run(d, tokens, st).value.nums| == 0 <==> |st.nums| == 0 && NoNumbers(tokens)
    decreases |tokens|
  {
    if |tokens| > 0 {
      var next := FirstOperands(d, tokens, st);
      RunOperands(d, tokens[1..], next);
      NoNumbersCons(tokens);
    }
  }

  /** The state after the first token of a successful loop, with what that
      token did to the operand stack. */
  lemma FirstOperands(d: Arithmetic, tokens: seq<string>, st: State) returns (next: State)
    requires |tokens| > 0 && Run(d, tokens, st).Ok?
    ensures Run(d, tokens[1..], next) == Run(d, tokens, st)
    ensures |next.nums| == 0 <==> |st.nums| == 0 && !Classify(tokens[0]).NumberToken?
  {
    next := Step(d, st, tokens[0]).value;
    StepOperands(d, st, tokens[0]);
  }

  lemma NoNumbersCons(tokens: seq<string>)
    requires |tokens| > 0
    ensures NoNumbers(tokens) <==> !Classify(tokens[0]).NumberToken? && NoNumbers(tokens[1..])
  {
    assert forall k :: 0 < k < |tokens| ==> tokens[k] == tokens[1..][k - 1];
  }

  /** `calculate`. The tokenizer's errors come first: an unbalanced string
      throws 6 and a balanced one with a rejected character throws 51; no
      other path throws them. */
  function Calculate(d: Arithmetic, exp: string): (r: Result<string>)
    ensures r == Fail(UNBALANCED) <==> !Balanced(exp)
    ensures r == Fail(INVALID_CHARACTER) <==> Balanced(exp) && HasInvalid(exp)
  {
    var tokens :- Tokenize(exp);
    Evaluate(d, Lexemes(tokens))
  }
}
