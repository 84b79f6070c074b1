/** What the tokens say about the text: read back without the injected `"0"`s
    they spell the text without its spaces; their operators and parentheses
    are the text's, with a `"0"` before exactly the signs at index 0 or right
    after `(`; and numbers are maximal runs of digits and points. */
module TokenizerFacts {
  import opened Results
  import opened Lexical
  import opened Tokenizer

  function WithoutSpaces(s: string): string {
    if |s| == 0 then [] else (if s[0] == ' ' then [] else [s[0]]) + WithoutSpaces(s[1..])
  }

  /** The tokens taken from the text, dropping the injected `"0"`s. */
  function Written(ts: seq<Token>): seq<Token> {
    if |ts| == 0 then [] else (if ts[0].InjectedZero? then [] else [ts[0]]) + Written(ts[1..])
  }

  /** The text the written tokens spell. */
  function Text(ts: seq<Token>): string {
    Concat(Lexemes(Written(ts)))
  }

  /** The tokens that are not numbers. */
  function Symbols(ts: seq<Token>): seq<Token> {
    if |ts| == 0 then [] else (if ts[0].Number? then [] else [ts[0]]) + Symbols(ts[1..])
  }

  /** A sign at index 0, or directly after `(`. */
  predicate InjectionSite(exp: string, i: nat)
    requires i < |exp|
  {
    IsSign(exp[i]) && (i == 0 || exp[i - 1] == '(')
  }

  /** A sign after `(` at index `i`: its `"0"` is emitted when the `(` is. */
  predicate Owed(exp: string, i: nat) {
    0 < i < |exp| && InjectionSite(exp, i)
  }

  /** The mark of the character at index `i`: a symbol is marked by itself,
      preceded by a `"0"` at an injection site. */
  function MarkAt(exp: string, i: nat): seq<Token>
    requires i < |exp|
  {
    if !IsSymbol(exp[i]) then []
    else if InjectionSite(exp, i) then [InjectedZero, Symbol(exp[i])]
    else [Symbol(exp[i])]
  }

  /** The marks of `exp` from index `i` on. */
  function MarksFrom(exp: string, i: nat): seq<Token>
    requires i <= |exp|
    decreases |exp| - i
  {
    if i == |exp| then [] else MarkAt(exp, i) + MarksFrom(exp, i + 1)
  }

  predicate NoAdjacentNumbers(ts: seq<Token>) {
    forall k :: 0 <= k < |ts| - 1 ==> !(ts[k].Number? && ts[k + 1].Number?)
  }

  /** Every number token is a non-empty run of digits and points. */
  predicate NumbersWellFormed(ts: seq<Token>) {
    forall k :: 0 <= k < |ts| ==> ts[k].Number? ==> NumberText(ts[k].text)
  }

  predicate NumberText(s: string) {
    |s| > 0 && forall j :: 0 <= j < |s| ==> IsNumberChar(s[j])
  }

  lemma {:induction false} WrittenAppend(a: seq<Token>, b: seq<Token>)
    ensures Written(a + b) == Written(a) + Written(b)
    decreases |a|
  {
    if |a| == 0 {
      assert a + b == b;
    } else {
      assert (a + b)[1..] == a[1..] + b;
      WrittenAppend(a[1..], b);
    }
  }

  lemma {:induction false} SymbolsAppend(a: seq<Token>, b: seq<Token>)
    ensures Symbols(a + b) == Symbols(a) + Symbols(b)
    decreases |a|
  {
    if |a| == 0 {
      assert a + b == b;
    } else {
      assert (a + b)[1..] == a[1..] + b;
      SymbolsAppend(a[1..], b);
    }
  }

  lemma TextAppend(a: seq<Token>, b: seq<Token>)
    ensures Text(a + b) == Text(a) + Text(b)
  {
    WrittenAppend(a, b);
    assert Lexemes(Written(a) + Written(b)) == Lexemes(Written(a)) + Lexemes(Written(b));
    ConcatAppend(Lexemes(Written(a)), Lexemes(Written(b)));
  }

  lemma TextOne(t: Token)
    ensures Text([t]) == if t.InjectedZero? then [] else Lexeme(t)
  {
    var w := Written([t]);
    assert [t][1..] == [];
    if t.InjectedZero? {
      assert w == [] + Written([]);
    } else {
      assert w == [t] + Written([]);
      assert w == [t];
      var ls := Lexemes(w);
      assert |ls| == 1 && ls[0] == Lexeme(t);
      assert ls[1..] == [];
      assert Concat(ls) == ls[0] + Concat(ls[1..]);
    }
  }

  /** What one symbol step of the scan contributes to the text. */
  lemma TextOfSymbolStep(lead: seq<Token>, n: string, c: char, trail: seq<Token>, rest: seq<Token>)
    requires lead == [] || lead == [InjectedZero]
    requires trail == [] || trail == [InjectedZero]
    ensures Text(lead + Flush(n) + [Symbol(c)] + trail + rest) == n + [c] + Text(rest)
  {
    var a := lead + Flush(n);
    var b := a + [Symbol(c)];
    var e := b + trail;
    assert Text(lead) == [] by { TextOne(InjectedZero); }
    assert Text(trail) == [] by { TextOne(InjectedZero); }
    assert Text(Flush(n)) == n by { if n != [] { TextOne(Number(n)); } }
    assert Text([Symbol(c)]) == [c] by { TextOne(Symbol(c)); }
    TextAppend(lead, Flush(n));
    assert Text(a) == n;
    TextAppend(a, [Symbol(c)]);
    assert Text(b) == n + [c];
    TextAppend(b, trail);
    assert Text(e) == n + [c];
    TextAppend(e, rest);
  }

  /** What one symbol step of the scan contributes to the marks. */
  lemma SymbolsOfSymbolStep(lead: seq<Token>, n: string, c: char, trail: seq<Token>, rest: seq<Token>)
    requires lead == [] || lead == [InjectedZero]
    requires trail == [] || trail == [InjectedZero]
    ensures Symbols(lead + Flush(n) + [Symbol(c)] + trail + rest) == lead + [Symbol(c)] + trail + Symbols(rest)
  {
    SymbolsAppend(lead + Flush(n) + [Symbol(c)] + trail, rest);
    SymbolsAppend(lead + Flush(n) + [Symbol(c)], trail);
    SymbolsAppend(lead + Flush(n), [Symbol(c)]);
    SymbolsAppend(lead, Flush(n));
    assert Symbols([Symbol(c)]) == [Symbol(c)] by { assert [Symbol(c)][1..] == []; }
    assert Symbols([InjectedZero]) == [InjectedZero] by { assert [InjectedZero][1..] == []; }
    assert Symbols(Flush(n)) == [] by { if n != [] { assert [Number(n)][1..] == []; } }
    assert Symbols(lead) == lead && Symbols(trail) == trail;
  }

  lemma NoAdjacentAppend(a: seq<Token>, b: seq<Token>)
    requires NoAdjacentNumbers(a) && NoAdjacentNumbers(b)
    requires |a| > 0 && |b| > 0 ==> !(a[|a| - 1].Number? && b[0].Number?)
    ensures NoAdjacentNumbers(a + b)
  {
    var ab := a + b;
    forall k | 0 <= k < |ab| - 1
      ensures !(ab[k].Number? && ab[k + 1].Number?)
    {
      if k < |a| - 1 {
        assert ab[k] == a[k] && ab[k + 1] == a[k + 1];
      } else if k == |a| - 1 {
        assert ab[k] == a[|a| - 1] && ab[k + 1] == b[0];
      } else {
        assert ab[k] == b[k - |a|] && ab[k + 1] == b[k - |a| + 1];
      }
    }
  }

  /** Round trip from index `i`: the written tokens spell the pending number
      followed by the rest of the text without spaces. */
  lemma {:induction false} ScanText(exp: string, i: nat, n: string)
    requires i <= |exp| && ScanFrom(exp, i, n).Ok?
    ensures Text(ScanFrom(exp, i, n).value) == n + WithoutSpaces(exp[i..])
    decreases |exp| - i
  {
    if i == |exp| {
      assert exp[i..] == [];
      if n != [] {
        TextOne(Number(n));
      }
    } else {
      var c := exp[i];
      WithoutSpacesStep(exp, i);
      if IsSymbol(c) {
        ScanText(exp, i + 1, []);
        TextAtSymbol(exp, i, n);
      } else if IsNumberChar(c) {
        AtNumberChar(exp, i, n);
        ScanText(exp, i + 1, n + [c]);
        assert n + [c] + WithoutSpaces(exp[i + 1..]) == n + ([c] + WithoutSpaces(exp[i + 1..]));
      } else {
        AtSpace(exp, i, n);
        ScanText(exp, i + 1, n);
      }
    }
  }

  /** One symbol step of `ScanText`, given the step after it. */
  lemma TextAtSymbol(exp: string, i: nat, n: string)
    requires i < |exp| && IsSymbol(exp[i]) && ScanFrom(exp, i + 1, []).Ok?
    requires Text(ScanFrom(exp, i + 1, []).value) == WithoutSpaces(exp[i + 1..])
    ensures ScanFrom(exp, i, n).Ok?
    ensures Text(ScanFrom(exp, i, n).value) == n + [exp[i]] + WithoutSpaces(exp[i + 1..])
  {
    var rest := ScanFrom(exp, i + 1, []).value;
    ScanAtSymbol(exp, i, n);
    TextOfSymbolStep(Lead(exp, i), n, exp[i], Trail(exp, i), rest);
  }

  lemma WithoutSpacesStep(exp: string, i: nat)
    requires i < |exp|
    ensures WithoutSpaces(exp[i..]) == (if exp[i] == ' ' then [] else [exp[i]]) + WithoutSpaces(exp[i + 1..])
  {
    assert exp[i..][0] == exp[i] && exp[i..][1..] == exp[i + 1..];
  }

  /** The marks the scan owes from index `i`. */
  function Owing(exp: string, i: nat): seq<Token>
    requires i <= |exp|
  {
    if Owed(exp, i) then MarksFrom(exp, i)[1..] else MarksFrom(exp, i)
  }

  /** The `"0"` emitted before the symbol at index `i`. */
  function Lead(exp: string, i: nat): seq<Token>
    requires i < |exp|
  {
    if i == 0 && IsSign(exp[i]) then [InjectedZero] else []
  }

  /** The `"0"` emitted after the symbol at index `i`. */
  function Trail(exp: string, i: nat): seq<Token>
    requires i < |exp|
  {
    if exp[i] == '(' && i + 1 < |exp| && IsSign(exp[i + 1]) then [InjectedZero] else []
  }

  /** The marks owed at a symbol, in terms of those owed after it. */
  lemma OwingAtSymbol(exp: string, i: nat)
    requires i < |exp| && IsSymbol(exp[i])
    ensures Owing(exp, i) == Lead(exp, i) + [Symbol(exp[i])] + Trail(exp, i) + Owing(exp, i + 1)
  {
    var lead, trail, owed, tail := Lead(exp, i), Trail(exp, i), Owing(exp, i + 1), MarksFrom(exp, i + 1);
    OwingHere(exp, i);
    TrailOwing(exp, i);
    SeqAssoc(lead + [Symbol(exp[i])], trail, owed);
  }

  lemma SeqAssoc<T>(a: seq<T>, b: seq<T>, c: seq<T>)
    ensures a + (b + c) == a + b + c
  {
  }

  /** A `"0"` after the `(` at `i` is the one owed at `i + 1`. */
  lemma TrailOwing(exp: string, i: nat)
    requires i < |exp|
    ensures Trail(exp, i) + Owing(exp, i + 1) == MarksFrom(exp, i + 1)
  {
    if Owed(exp, i + 1) {
      assert MarkAt(exp, i + 1) == [InjectedZero, Symbol(exp[i + 1])];
      assert MarksFrom(exp, i + 1) == [InjectedZero] + ([Symbol(exp[i + 1])] + MarksFrom(exp, i + 2));
    } else {
      assert Trail(exp, i) == [];
    }
  }

  /** The marks owed at a symbol: the symbol, after a `"0"` if it is a sign at index 0. */
  lemma OwingHere(exp: string, i: nat)
    requires i < |exp| && IsSymbol(exp[i])
    ensures Owing(exp, i) == Lead(exp, i) + [Symbol(exp[i])] + MarksFrom(exp, i + 1)
  {
    var c := exp[i];
    var tail := MarksFrom(exp, i + 1);
    assert MarksFrom(exp, i) == MarkAt(exp, i) + tail;
    if i == 0 {
      assert !Owed(exp, i);
      if IsSign(c) {
        assert MarkAt(exp, i) == [InjectedZero] + [Symbol(c)];
      }
    } else if Owed(exp, i) {
      assert MarksFrom(exp, i) == [InjectedZero] + ([Symbol(c)] + tail);
    } else {
      assert Lead(exp, i) == [];
    }
  }

  /** A scan that succeeds from `i` accepts `exp[i]` and succeeds from `i + 1`
      with any pending number. */
  lemma ScanOkNext(exp: string, i: nat, n: string, m: string)
    requires i < |exp| && ScanFrom(exp, i, n).Ok?
    ensures IsValid(exp[i]) && ScanFrom(exp, i + 1, m).Ok?
  {
  }

  /** The scan at a symbol, in terms of the scan after it. */
  lemma ScanAtSymbol(exp: string, i: nat, n: string)
    requires i < |exp| && IsSymbol(exp[i]) && ScanFrom(exp, i + 1, []).Ok?
    ensures ScanFrom(exp, i, n)
         == Ok(Lead(exp, i) + Flush(n) + [Symbol(exp[i])] + Trail(exp, i) + ScanFrom(exp, i + 1, []).value)
  {
  }

  /** One symbol step of `ScanSymbols`, given the step after it. */
  lemma SymbolsAtSymbol(exp: string, i: nat, n: string, rest: seq<Token>)
    requires i < |exp| && IsSymbol(exp[i])
    requires ScanFrom(exp, i + 1, []) == Ok(rest)
    requires Symbols(rest) == Owing(exp, i + 1)
    ensures ScanFrom(exp, i, n).Ok? && Symbols(ScanFrom(exp, i, n).value) == Owing(exp, i)
  {
    ScanAtSymbol(exp, i, n);
    SymbolsOfSymbolStep(Lead(exp, i), n, exp[i], Trail(exp, i), rest);
    OwingAtSymbol(exp, i);
  }

  /** Injection from index `i`: the non-number tokens are the marks of the
      rest of the text — except that a `"0"` owed to a `(` just before `i`
      was emitted together with that `(`. */
  lemma {:induction false} ScanSymbols(exp: string, i: nat, n: string)
    requires i <= |exp| && ScanFrom(exp, i, n).Ok?
    ensures Symbols(ScanFrom(exp, i, n).value) == Owing(exp, i)
    decreases |exp| - i
  {
    if i < |exp| {
      var c := exp[i];
      if IsSymbol(c) {
        ScanSymbols(exp, i + 1, []);
        SymbolsAtSymbol(exp, i, n, ScanFrom(exp, i + 1, []).value);
      } else {
        assert !Owed(exp, i + 1) && !Owed(exp, i);
        assert MarksFrom(exp, i) == [] + MarksFrom(exp, i + 1);
        if IsNumberChar(c) {
          ScanSymbols(exp, i + 1, n + [c]);
        } else {
          ScanSymbols(exp, i + 1, n);
        }
      }
    }
  }

  /** Numbers from index `i` are maximal runs of digits and points. */
  lemma {:induction false} ScanNumbers(exp: string, i: nat, n: string)
    requires i <= |exp| && ScanFrom(exp, i, n).Ok?
    requires forall j :: 0 <= j < |n| ==> IsNumberChar(n[j])
    ensures NoAdjacentNumbers(ScanFrom(exp, i, n).value)
    ensures NumbersWellFormed(ScanFrom(exp, i, n).value)
    decreases |exp| - i
  {
    if i < |exp| {
      var c := exp[i];
      if IsSymbol(c) {
        ScanOkNext(exp, i, n, []);
        ScanNumbers(exp, i + 1, []);
        ScanAtSymbol(exp, i, n);
        NumbersOfSymbolStep(Lead(exp, i), n, c, Trail(exp, i), ScanFrom(exp, i + 1, []).value);
      } else if IsNumberChar(c) {
        AtNumberChar(exp, i, n);
        ScanNumbers(exp, i + 1, n + [c]);
      } else {
        AtSpace(exp, i, n);
        ScanNumbers(exp, i + 1, n);
      }
    }
  }

  lemma NumbersWellFormedAppend(a: seq<Token>, b: seq<Token>)
    requires NumbersWellFormed(a) && NumbersWellFormed(b)
    ensures NumbersWellFormed(a + b)
  {
    var ab := a + b;
    forall k | 0 <= k < |ab| && ab[k].Number?
      ensures NumberText(ab[k].text)
    {
      if k >= |a| {
        assert ab[k] == b[k - |a|];
      }
    }
  }

  /** One symbol step of `ScanNumbers`. */
  lemma NumbersOfSymbolStep(lead: seq<Token>, n: string, c: char, trail: seq<Token>, rest: seq<Token>)
    requires lead == [] || lead == [InjectedZero]
    requires trail == [] || trail == [InjectedZero]
    requires forall j :: 0 <= j < |n| ==> IsNumberChar(n[j])
    requires NoAdjacentNumbers(rest) && NumbersWellFormed(rest)
    ensures NoAdjacentNumbers(lead + Flush(n) + [Symbol(c)] + trail + rest)
    ensures NumbersWellFormed(lead + Flush(n) + [Symbol(c)] + trail + rest)
  {
    var a := lead + Flush(n);
    var b := a + [Symbol(c)];
    var front := b + trail;
    NoAdjacentAppend(lead, Flush(n));
    NoAdjacentAppend(a, [Symbol(c)]);
    NoAdjacentAppend(b, trail);
    NoAdjacentAppend(front, rest);
    assert NumbersWellFormed(front);
    NumbersWellFormedAppend(front, rest);
  }

  lemma AtNumberChar(exp: string, i: nat, n: string)
    requires i < |exp| && IsNumberChar(exp[i])
    ensures ScanFrom(exp, i, n) == ScanFrom(exp, i + 1, n + [exp[i]])
  {
  }

  lemma AtSpace(exp: string, i: nat, n: string)
    requires i < |exp| && exp[i] == ' '
    ensures ScanFrom(exp, i, n) == ScanFrom(exp, i + 1, n)
  {
  }

  /** The three facts for a whole tokenized text. */
  lemma TokenizeFacts(exp: string)
    requires Tokenize(exp).Ok?
    ensures var ts := Tokenize(exp).value;
      && Text(ts) == WithoutSpaces(exp)
      && Symbols(ts) == MarksFrom(exp, 0)
      && NoAdjacentNumbers(ts)
      && NumbersWellFormed(ts)
  {
    assert exp[0..] == exp;
    ScanText(exp, 0, []);
    ScanSymbols(exp, 0, []);
    ScanNumbers(exp, 0, []);
  }
}
