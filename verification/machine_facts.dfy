/** General facts about the token loop of `calculate`. */
module MachineFacts {
  import opened Results
  import opened Numeric
  import opened Machine

  /** Continues the token loop on `tokens` after a partial run. */
  function Then(d: Arithmetic, r: Result<State>, tokens: seq<string>): Result<State> {
    match r
    case Ok(s) => Run(d, tokens, s)
    case Fail(c) => Fail(c)
  }

  /** Running the loop over `a + b` is running it over `a`, then over `b` from
      where `a` left the stacks; a failure in `a` ends the loop. */
  lemma {:induction false} RunAppend(d: Arithmetic, a: seq<string>, b: seq<string>, st: State)
    ensures Run(d, a + b, st) == Then(d, Run(d, a, st), b)
    decreases |a|
  {
    if |a| == 0 {
      assert a + b == b;
    } else {
      assert (a + b)[0] == a[0];
      assert (a + b)[1..] == a[1..] + b;
      match Step(d, st, a[0])
      case Fail(c) =>
      case Ok(next) =>
        RunAppend(d, a[1..], b, next);
    }
  }

  /** One iteration of the token loop, then the rest. */
  lemma RunStep(d: Arithmetic, tokens: seq<string>, st: State)
    requires |tokens| > 0
    ensures Run(d, tokens, st) == Then(d, Step(d, st, tokens[0]), tokens[1..])
  {
  }
}
