/** The parenthesis pre-check (`checkParenthesis`). */
module Parens {
  import opened Results

  function Delta(c: char): int {
    if c == '(' then 1 else if c == ')' then -1 else 0
  }

  /** Number of `(` minus number of `)` in `s`. */
  function Depth(s: string): int {
    if |s| == 0 then 0 else Depth(s[..|s| - 1]) + Delta(s[|s| - 1])
  }

  /** No prefix closes more parentheses than it opens, and the whole string closes all it opens. */
  predicate Balanced(s: string) {
    (forall k :: 0 <= k <= |s| ==> Depth(s[..k]) >= 0) && Depth(s) == 0
  }

  /** The scan of `checkParenthesis` from index `i`, with `depth` standing for the
      size of its stack of `(` characters. */
  function CheckFrom(exp: string, i: nat, depth: nat): (r: Result<()>)
    requires i <= |exp|
    requires depth == Depth(exp[..i])
    requires forall k :: 0 <= k <= i ==> Depth(exp[..k]) >= 0
    ensures r.Ok? <==> Balanced(exp)
    ensures r.Fail? ==> r.code == UNBALANCED
    decreases |exp| - i
  {
    if i == |exp| then
      assert exp[..i] == exp;
      if depth == 0 then Ok(()) else Fail(UNBALANCED)
    else
      assert exp[..i + 1][..i] == exp[..i];
      if exp[i] == '(' then
        CheckFrom(exp, i + 1, depth + 1)
      else if exp[i] == ')' then
        if depth == 0 then Fail(UNBALANCED) else CheckFrom(exp, i + 1, depth - 1)
      else
        CheckFrom(exp, i + 1, depth)
  }

  /** `checkParenthesis`: succeeds exactly on balanced strings, otherwise throws 6. */
  function CheckParenthesis(exp: string): (r: Result<()>)
    ensures r.Ok? <==> Balanced(exp)
    ensures r.Fail? ==> r.code == UNBALANCED
  {
    CheckFrom(exp, 0, 0)
  }
}

/** Facts about balance used to show that printed expressions pass the pre-check. */
module ParenFacts {
  import opened Parens

  predicate IsParen(c: char) {
    c == '(' || c == ')'
  }

  /** The parentheses of `s`, in order. */
  function ParensOf(s: string): string {
    if |s| == 0 then [] else ParensOf(s[..|s| - 1]) + (if IsParen(s[|s| - 1]) then [s[|s| - 1]] else [])
  }

  /** No prefix of `s` has negative depth. */
  predicate PrefixesOk(s: string) {
    forall k :: 0 <= k <= |s| ==> Depth(s[..k]) >= 0
  }

  lemma {:induction false} DepthAppend(a: string, b: string)
    ensures Depth(a + b) == Depth(a) + Depth(b)
    decreases |b|
  {
    if |b| == 0 {
      assert a + b == a;
    } else {
      var b' := b[..|b| - 1];
      assert (a + b)[..|a + b| - 1] == a + b';
      DepthAppend(a, b');
    }
  }

  lemma PrefixesSnoc(s: string, c: char)
    ensures PrefixesOk(s + [c]) <==> PrefixesOk(s) && Depth(s + [c]) >= 0
  {
    var t := s + [c];
    assert forall k :: 0 <= k <= |s| ==> t[..k] == s[..k];
    assert t[..|t|] == t;
    if PrefixesOk(s) && Depth(t) >= 0 {
      forall k | 0 <= k <= |t|
        ensures Depth(t[..k]) >= 0
      {
        if k <= |s| {
          assert t[..k] == s[..k];
        }
      }
    }
  }

  lemma {:induction false} ParensOfAppend(a: string, b: string)
    ensures ParensOf(a + b) == ParensOf(a) + ParensOf(b)
    decreases |b|
  {
    if |b| == 0 {
      assert a + b == a;
    } else {
      var b' := b[..|b| - 1];
      assert (a + b)[..|a + b| - 1] == a + b';
      ParensOfAppend(a, b');
    }
  }

  /** Balance only depends on the parentheses: `ParensOf` keeps the depth of
      the string and of every prefix. */
  lemma {:induction false} BalancedParensOf(s: string)
    ensures Depth(ParensOf(s)) == Depth(s)
    ensures PrefixesOk(ParensOf(s)) <==> PrefixesOk(s)
    ensures Balanced(ParensOf(s)) <==> Balanced(s)
    decreases |s|
  {
    if |s| == 0 {
      assert s[..0] == s;
    } else {
      var s' := s[..|s| - 1];
      var c := s[|s| - 1];
      assert s == s' + [c];
      BalancedParensOf(s');
      PrefixesSnoc(s', c);
      if IsParen(c) {
        assert (ParensOf(s') + [c])[..|ParensOf(s')|] == ParensOf(s');
        PrefixesSnoc(ParensOf(s'), c);
      } else {
        assert ParensOf(s) == ParensOf(s');
        assert Depth(s) == Depth(s');
        assert s'[..|s'|] == s';
      }
    }
  }

  lemma BalancedAppend(a: string, b: string)
    requires Balanced(a) && Balanced(b)
    ensures Balanced(a + b)
  {
    DepthAppend(a, b);
    forall k | 0 <= k <= |a + b|
      ensures Depth((a + b)[..k]) >= 0
    {
      if k <= |a| {
        assert (a + b)[..k] == a[..k];
      } else {
        assert (a + b)[..k] == a + b[..k - |a|];
        DepthAppend(a, b[..k - |a|]);
      }
    }
  }

  lemma BalancedWrap(a: string)
    requires Balanced(a)
    ensures Balanced("(" + a + ")")
  {
    var t := "(" + a + ")";
    DepthAppend("(" + a, ")");
    DepthAppend("(", a);
    forall k | 0 <= k <= |t|
      ensures Depth(t[..k]) >= 0
    {
      if k == 0 {
      } else if k <= |a| + 1 {
        assert t[..k] == "(" + a[..k - 1];
        DepthAppend("(", a[..k - 1]);
      } else {
        assert t[..k] == t;
      }
    }
  }

  /** A string without parentheses is balanced. */
  lemma {:induction false} BalancedWithoutParens(s: string)
    requires forall k :: 0 <= k < |s| ==> !IsParen(s[k])
    ensures ParensOf(s) == []
    ensures Balanced(s)
    decreases |s|
  {
    if |s| > 0 {
      BalancedWithoutParens(s[..|s| - 1]);
    }
    BalancedParensOf(s);
  }
}
