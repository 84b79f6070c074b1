/** Error 1 (a `)` with no `(` on the operator stack) cannot come out of
    `calculate`: the parenthesis pre-check has already rejected every text in
    which some `)` closes more than was opened before it. */
module CloseFacts {
  import opened Results
  import opened Lexical
  import opened Parens
  import opened Tokenizer
  import opened Precedence
  import opened Numeric
  import opened Machine
  import opened MachineFacts
  import opened TokenizerFacts

  /** The number of `(` on an operator stack. */
  function Opens(ops: seq<char>): nat {
    multiset(ops)['(']
  }

  /** What a token does to the nesting depth. */
  function TokenDelta(t: string): int {
    if t == "(" then 1 else if t == ")" then -1 else 0
  }

  /** Starting at depth `n`, the tokens `ls` never take the depth below zero. */
  predicate Covered(ls: seq<string>, n: int)
    decreases |ls|
  {
    n >= 0 && (|ls| == 0 || Covered(ls[1..], n + TokenDelta(ls[0])))
  }

  /** Cutting the stack below a `(` that has no `(` above it removes exactly one `(`. */
  lemma OpensCut(ops: seq<char>, j: nat)
    requires j <= |ops|
    requires forall k :: j < k < |ops| ==> ops[k] != '('
    ensures Opens(ops) == Opens(ops[..j]) + (if j < |ops| && ops[j] == '(' then 1 else 0)
  {
    assert ops == ops[..j] + ops[j..];
    if j < |ops| {
      assert ops[j..] == [ops[j]] + ops[j + 1..];
      assert '(' !in ops[j + 1..];
    }
  }

  /** No operator token ranks at or below `(`. */
  lemma OpenBindsLoosest(x: char, op: char)
    requires op != '(' && op != ')' && HasPrecedence(x, op) == Ok(true)
    ensures x != '('
  {
    assert IsOperator(op);
  }

  /** An operator token pops nothing but operators ranked at least as high as
      itself, so never a `(`. */
  lemma PushKeepsOpens(d: Arithmetic, st: State, op: char)
    requires op != '(' && op != ')' && PushOperator(d, st, op).Ok?
    ensures Opens(PushOperator(d, st, op).value.ops) == Opens(st.ops)
  {
    var s := ReduceWhile(d, st, BeforePush(op)).value;
    var j := |s.ops|;
    forall k | j <= k < |st.ops|
      ensures st.ops[k] != '('
    {
      assert Continues(BeforePush(op), st.ops[k]) == Ok(true);
      OpenBindsLoosest(st.ops[k], op);
    }
    OpensCut(st.ops, j);
    assert PushOperator(d, st, op).value.ops == s.ops + [op];
    assert multiset(s.ops + [op]) == multiset(s.ops) + multiset{op};
  }

  /** One token changes the number of `(` on the stack by its depth change,
      and only a `)` over a stack without `(` throws 1. */
  lemma StepOpens(d: Arithmetic, st: State, t: string)
    ensures Step(d, st, t) == Fail(UNMATCHED_CLOSE) ==> t == ")" && Opens(st.ops) == 0
    ensures Step(d, st, t).Ok? ==> Opens(Step(d, st, t).value.ops) == Opens(st.ops) + TokenDelta(t)
  {
    match Classify(t)
    case NumberToken =>
    case OpenToken =>
      assert multiset(st.ops + ['(']) == multiset(st.ops) + multiset{'('};
    case CloseToken =>
      var r := CloseParen(d, st);
      if r.Ok? {
        OpensCut(st.ops, |r.value.ops|);
      }
    case OperatorToken(op) =>
      if PushOperator(d, st, op).Ok? {
        PushKeepsOpens(d, st, op);
      }
  }

  /** The token loop throws 1 only on tokens that close more than the stack opened. */
  lemma {:induction false} RunCovered(d: Arithmetic, ls: seq<string>, st: State)
    requires Covered(ls, Opens(st.ops))
    ensures Run(d, ls, st) != Fail(UNMATCHED_CLOSE)
    decreases |ls|
  {
    if |ls| > 0 {
      var r := FirstStep(d, ls, st);
      if r.Ok? {
        RunCovered(d, ls[1..], r.value);
      }
      ThenNotClose(d, r, ls[1..]);
    }
  }

  lemma ThenNotClose(d: Arithmetic, r: Result<State>, rest: seq<string>)
    requires r.Fail? ==> r.code != UNMATCHED_CLOSE
    requires r.Ok? ==> Run(d, rest, r.value) != Fail(UNMATCHED_CLOSE)
    ensures Then(d, r, rest) != Fail(UNMATCHED_CLOSE)
  {
  }

  /** The first step of the token loop on covered tokens: it does not throw 1,
      and a success leaves the rest of the tokens covered. */
  lemma FirstStep(d: Arithmetic, ls: seq<string>, st: State) returns (r: Result<State>)
    requires |ls| > 0 && Covered(ls, Opens(st.ops))
    ensures Run(d, ls, st) == Then(d, r, ls[1..])
    ensures r.Fail? ==> r.code != UNMATCHED_CLOSE
    ensures r.Ok? ==> Covered(ls[1..], Opens(r.value.ops))
  {
    r := Step(d, st, ls[0]);
    StepOpens(d, st, ls[0]);
    RunStep(d, ls, st);
    CoveredStep(ls, Opens(st.ops), r);
  }

  /** What `StepOpens` says about a step, read against covered tokens. */
  lemma CoveredStep(ls: seq<string>, n: int, r: Result<State>)
    requires |ls| > 0 && Covered(ls, n)
    requires r == Fail(UNMATCHED_CLOSE) ==> ls[0] == ")" && n == 0
    requires r.Ok? ==> Opens(r.value.ops) == n + TokenDelta(ls[0])
    ensures r.Fail? ==> r.code != UNMATCHED_CLOSE
    ensures r.Ok? ==> Covered(ls[1..], Opens(r.value.ops))
  {
    CoveredFirst(ls, n);
  }

  /** A covered token list starts at a depth of at least 0, and at least 1 if it starts with `)`. */
  lemma CoveredFirst(ls: seq<string>, n: int)
    requires |ls| > 0 && Covered(ls, n)
    ensures Covered(ls[1..], n + TokenDelta(ls[0]))
    ensures ls[0] == ")" ==> n >= 1
  {
  }

  lemma CoveredCons(t: string, ls: seq<string>, n: int)
    requires n >= 0 && Covered(ls, n + TokenDelta(t))
    ensures Covered([t] + ls, n)
  {
    assert ([t] + ls)[1..] == ls;
  }

  /** `Covered` for the lexemes of tokens. */
  predicate CoveredTokens(ts: seq<Token>, n: int)
    decreases |ts|
  {
    n >= 0 && (|ts| == 0 || CoveredTokens(ts[1..], n + TokenDelta(Lexeme(ts[0]))))
  }

  lemma CoveredTokensCons(t: Token, ts: seq<Token>, n: int)
    requires n >= 0 && CoveredTokens(ts, n + TokenDelta(Lexeme(t)))
    ensures CoveredTokens([t] + ts, n)
  {
    assert ([t] + ts)[1..] == ts;
  }

  lemma {:induction false} CoveredLexemes(ts: seq<Token>, n: int)
    requires CoveredTokens(ts, n)
    ensures Covered(Lexemes(ts), n)
    decreases |ts|
  {
    if |ts| > 0 {
      assert Lexemes(ts)[1..] == Lexemes(ts[1..]);
      CoveredLexemes(ts[1..], n + TokenDelta(Lexeme(ts[0])));
    }
  }

  /** The tokens of the scan from index `i` never take the depth below zero
      when the text from `i` on never takes depth `c` below zero. */
  lemma {:induction false} ScanCovered(exp: string, i: nat, n: string, c: int)
    requires i <= |exp| && ScanFrom(exp, i, n).Ok?
    requires n == [] || IsNumberChar(n[0])
    requires forall j :: i <= j <= |exp| ==> c + Depth(exp[..j]) - Depth(exp[..i]) >= 0
    ensures CoveredTokens(ScanFrom(exp, i, n).value, c)
    decreases |exp| - i
  {
    DepthFrom(exp, i, c);
    if i == |exp| {
      if n != [] {
        CoveredTokensCons(Number(n), [], c);
      }
    } else {
      var ch := exp[i];
      if IsSymbol(ch) {
        ScanOkNext(exp, i, n, []);
        ScanCovered(exp, i + 1, [], c + Delta(ch));
        ScanAtSymbol(exp, i, n);
        SymbolCovered(Lead(exp, i), n, ch, Trail(exp, i), ScanFrom(exp, i + 1, []).value, c);
      } else if IsNumberChar(ch) {
        ScanOkNext(exp, i, n, n + [ch]);
        ScanCovered(exp, i + 1, n + [ch], c);
      } else {
        ScanOkNext(exp, i, n, n);
        ScanCovered(exp, i + 1, n, c);
      }
    }
  }

  /** The depth condition of `ScanCovered` at `i`, passed on to `i + 1`. */
  lemma DepthFrom(exp: string, i: nat, c: int)
    requires i <= |exp|
    requires forall j :: i <= j <= |exp| ==> c + Depth(exp[..j]) - Depth(exp[..i]) >= 0
    ensures c >= 0
    ensures i < |exp| ==>
      forall j :: i + 1 <= j <= |exp| ==> c + Delta(exp[i]) + Depth(exp[..j]) - Depth(exp[..i + 1]) >= 0
  {
    assert c + Depth(exp[..i]) - Depth(exp[..i]) >= 0;
    if i < |exp| {
      DepthStep(exp, i);
    }
  }

  lemma DepthStep(exp: string, i: nat)
    requires i < |exp|
    ensures Depth(exp[..i + 1]) == Depth(exp[..i]) + Delta(exp[i])
  {
    assert exp[..i + 1][..i] == exp[..i];
  }

  /** At most one token, which leaves the depth alone. */
  predicate Neutral(pre: seq<Token>) {
    |pre| <= 1 && (|pre| == 1 ==> TokenDelta(Lexeme(pre[0])) == 0)
  }

  lemma NeutralPrefix(pre: seq<Token>, ts: seq<Token>, n: int)
    requires Neutral(pre) && CoveredTokens(ts, n)
    ensures CoveredTokens(pre + ts, n)
  {
    if |pre| == 1 {
      assert pre + ts == [pre[0]] + ts;
      CoveredTokensCons(pre[0], ts, n);
    } else {
      assert pre + ts == ts;
    }
  }

  /** One symbol step of `ScanCovered`. */
  lemma SymbolCovered(lead: seq<Token>, n: string, ch: char, trail: seq<Token>, rest: seq<Token>, c: int)
    requires lead == [] || lead == [InjectedZero]
    requires trail == [] || trail == [InjectedZero]
    requires n == [] || IsNumberChar(n[0])
    requires c >= 0 && CoveredTokens(rest, c + Delta(ch))
    ensures CoveredTokens(lead + Flush(n) + [Symbol(ch)] + trail + rest, c)
  {
    var tr := trail + rest;
    NeutralPrefix(trail, rest, c + Delta(ch));
    assert TokenDelta(Lexeme(Symbol(ch))) == Delta(ch);
    CoveredTokensCons(Symbol(ch), tr, c);
    var sy := [Symbol(ch)] + tr;
    NeutralPrefix(Flush(n), sy, c);
    var fl := Flush(n) + sy;
    NeutralPrefix(lead, fl, c);
    Regroup(lead, Flush(n), [Symbol(ch)], trail, rest);
  }

  lemma Regroup<T>(a: seq<T>, b: seq<T>, c: seq<T>, d: seq<T>, e: seq<T>)
    ensures a + b + c + d + e == a + (b + (c + (d + e)))
  {
  }

  /** `calculate` never throws 1. */
  lemma NoUnmatchedClose(d: Arithmetic, exp: string)
    ensures Calculate(d, exp) != Fail(UNMATCHED_CLOSE)
  {
    if Tokenize(exp).Ok? {
      var ls := Lexemes(Tokenize(exp).value);
      assert exp[..0] == [];
      ScanCovered(exp, 0, [], 0);
      CoveredLexemes(Tokenize(exp).value, 0);
      RunCovered(d, ls, State([], []));
    }
  }
}
