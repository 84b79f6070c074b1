/** The tokenizer (`tokenize`). */
module Tokenizer {
  import opened Results
  import opened Lexical
  import opened Parens

  /** Emits the pending number lexeme, if any, as non-empty number tokens. */
  function Flush(number: string): (r: seq<Token>)
    ensures forall k :: 0 <= k < |r| ==> r[k].Number? && r[k].text != []
  {
    if number == [] then [] else [Number(number)]
  }

  /** The flushed tokens spell out exactly the pending text, so nothing is
      emitted for an empty one. */
  lemma FlushSpells(number: string)
    ensures Concat(Lexemes(Flush(number))) == number
    ensures number == [] <==> Flush(number) == []
  {
  }

  /** Some character of `exp` is rejected by the tokenizer. */
  predicate HasInvalid(exp: string) {
    HasInvalidFrom(exp, 0)
  }

  /** Some character of `exp` at index `i` or later is rejected by the tokenizer
      (`InvalidAt` restates this with an explicit index). */
  predicate HasInvalidFrom(exp: string, i: nat)
    decreases |exp| - i
  {
    i < |exp| && (!IsValid(exp[i]) || HasInvalidFrom(exp, i + 1))
  }

  /** `HasInvalidFrom` holds exactly when some index at `i` or later holds a
      rejected character. */
  lemma {:induction false} InvalidAt(exp: string, i: nat)
    ensures HasInvalidFrom(exp, i) <==> exists k :: i <= k < |exp| && !IsValid(exp[k])
    decreases |exp| - i
  {
    if i < |exp| {
      InvalidAt(exp, i + 1);
      if !IsValid(exp[i]) {
        assert i <= i < |exp| && !IsValid(exp[i]);
      } else if exists k :: i <= k < |exp| && !IsValid(exp[k]) {
        var k :| i <= k < |exp| && !IsValid(exp[k]);
        assert k != i;
      }
    }
  }

  /** The tokens the scanning loop emits from index `i` to the end, given the
      number lexeme accumulated so far. A `"0"` is emitted before a sign at
      index 0 and after a `(` whose very next character is a sign. */
  function ScanFrom(exp: string, i: nat, number: string): (r: Result<seq<Token>>)
    requires i <= |exp|
    ensures r.Fail? <==> HasInvalidFrom(exp, i)
    ensures r.Fail? ==> r.code == INVALID_CHARACTER
    decreases |exp| - i
  {
    if i == |exp| then
      Ok(Flush(number))
    else
      var c := exp[i];
      if IsSymbol(c) then
        var lead := if i == 0 && IsSign(c) then [InjectedZero] else [];
        var trail := if c == '(' && i + 1 < |exp| && IsSign(exp[i + 1]) then [InjectedZero] else [];
        var rest :- ScanFrom(exp, i + 1, []);
        Ok(lead + Flush(number) + [Symbol(c)] + trail + rest)
      else if IsNumberChar(c) then
        ScanFrom(exp, i + 1, number + [c])
      else if c != ' ' then
        Fail(INVALID_CHARACTER)
      else
        ScanFrom(exp, i + 1, number)
  }

  /** `tokenize`: the parenthesis pre-check, then the scan. An unbalanced string
      throws 6 whatever else it contains; a balanced one throws 51 exactly when
      it holds a rejected character. */
  function Tokenize(exp: string): (r: Result<seq<Token>>)
    ensures r == Fail(UNBALANCED) <==> !Balanced(exp)
    ensures r == Fail(INVALID_CHARACTER) <==> Balanced(exp) && HasInvalid(exp)
    ensures r.Ok? <==> Balanced(exp) && !HasInvalid(exp)
  {
    var checked :- CheckParenthesis(exp);
    ScanFrom(exp, 0, [])
  }
}
