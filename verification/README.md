# Infix evaluator: a Dafny model

This project models the core of `evaluator.cpp`, an infix calculator. `Evaluator::calculate` takes one expression string and returns its value as a decimal string, or throws an integer error code. It runs in three stages:

1. a parenthesis pre-check (`checkParenthesis`);
2. a tokenizer (`tokenize`), which accumulates numbers, emits one-character operator and parenthesis tokens, skips spaces, rejects other characters and injects a `"0"` before a unary sign;
3. a shunting-yard loop over an operand stack and an operator stack, with the reduction step `operate`, the precedence table (`getPrecedence`, `hasPrecedence`) and the operator application `applyOperator`.

Thrown integers become `Fail(code)` of a `Result` datatype.

The float layer is a parameter `d: Arithmetic`:
- `d.compute(op, a, b)` stands for `stof` on both operands, the float operation and `to_string`;
- `d.isZero(b)` stands for `stof(b) == 0`.

Every property below holds for every such arithmetic, with two exceptions. `Scenarios.DivisionByZero` assumes that `"0"` parses to zero (`d.isZero("0")`). `Scenarios.Remainder` assumes that `"3"` does not (`!d.isZero("3")`). Stacks are sequences with the top at the end.

Modules, in dependency order:

| module | what it models |
|---|---|
| `Results` | the error datatype and codes |
| `Lexical` | character classes and token kinds |
| `Parens` | `checkParenthesis` |
| `Tokenizer` | `tokenize` |
| `Precedence` | the precedence table |
| `Numeric` | `applyOperator` |
| `Machine` | `operate` and `calculate` |

The facts modules prove properties of these:

| module | what it proves |
|---|---|
| `ParenFacts` | balance is kept by concatenation and by wrapping in parentheses, and holds for texts without parentheses |
| `TokenizerFacts` | what the tokens say about the text |
| `MachineFacts` | the token loop over a concatenation is the loop over each part in turn |
| `Trees`, `TreeFacts` | a reference semantics on expression trees, and what follows from it about precedence, associativity and redundant parentheses |
| `Rendering` | text-level evaluation of any printed tree with any spacing |
| `CloseFacts` | code 1 can never come out of `calculate` |
| `Scenarios` | worked inputs |

The central theorems:
- `Trees.EvaluatePrint`: the evaluator's token loop, run on the tokens of any well-formed expression tree (printed with the parentheses its grouping needs), returns the tree's value or its first error.
- `Rendering.CalculateSpaced`: the same holds for `calculate` on the printed text, with any number of spaces between or around the tokens.

Together they state precedence, left associativity (`^` included) and whitespace invariance for the whole class of such expressions.

Behaviour of the code worth knowing, each stated as proved:
- `2(3+1)` is accepted. `calculate` returns the group's value, leaving `2` unused below it on the operand stack (`Scenarios.NumberBeforeGroup`).
- A `"0"` is injected only before a sign at index 0, or before a sign at the index right after a `(`. The source's comment on this branch (evaluator.cpp:137) speaks of handling a leading positive or negative, but a sign after a leading space (` -1`) or after `( ` (`( -1)`) gets no `"0"`, so the subtraction finds one operand and throws 22 (`Scenarios.SpacedLeadingMinus`, `Scenarios.SpacedMinusAfterOpen`). Whitespace invariance therefore holds for the printed trees of `Rendering.CalculateSpaced`, which never put a sign first or right after `(`, but not for every text.
- Code 1 (unmatched `)` in the main loop) can never be thrown by `calculate`: the parenthesis pre-check rejects such input with 6 first (`CloseFacts.NoUnmatchedClose`).
- The model-only code 0 for an empty operand stack at the end comes out exactly when both loops succeed on tokens none of which is taken as a number, as for `()` (`Machine.Evaluate`).

## Model

| member | source | states |
|---|---|---|
| Parens.CheckParenthesis | evaluator.cpp:288-302 | succeeds exactly when no prefix of the text closes more parentheses than it opened and the text closes all it opened; every failure is code 6 |
| Parens.CheckFrom | evaluator.cpp:291-301 | the scan from index `i` with the count of open `(` so far succeeds exactly on balanced texts, failing only with 6 |
| Tokenizer.FlushSpells | evaluator.cpp:171-173 | the pending number is emitted only when non-empty, and the emitted tokens spell out exactly the pending text |
| Tokenizer.ScanFrom | evaluator.cpp:132-173 | the scanning loop from index `i` fails exactly when some character from `i` on is rejected, and then with code 51 |
| Tokenizer.InvalidAt | evaluator.cpp:132-167 | the scan's notion of "a rejected character from index `i` on" holds exactly when some index at `i` or later holds a character that is not an operator, a parenthesis, a digit, a point or a space |
| Tokenizer.Tokenize | evaluator.cpp:122-177 | an unbalanced text throws 6 whatever else it holds; a balanced one throws 51 exactly when it holds a rejected character; it succeeds on every other text |
| TokenizerFacts.ScanText | evaluator.cpp:143-173 | round trip: the tokens without the injected `"0"`s, concatenated, spell the pending number followed by the rest of the text with its spaces removed |
| TokenizerFacts.ScanSymbols | evaluator.cpp:136-158 | the non-number tokens are the text's operators and parentheses in order, with a `"0"` before exactly the signs at index 0 or directly after `(`, and nowhere else |
| TokenizerFacts.ScanNumbers | evaluator.cpp:161-173 | no two number tokens are adjacent, and each is a non-empty run of digits and points, so spaces never split a number |
| TokenizerFacts.TokenizeFacts | evaluator.cpp:122-177 | for a whole tokenized text: the round trip, the injection positions, and maximal well-formed numbers |
| Lexical.IsOperator | evaluator.cpp:180-193 | true exactly on `+ - * / ^ %` |
| Precedence.OperatorRanks | evaluator.cpp:180-193 | the operators are exactly the characters the precedence table ranks 1 or more; the parentheses rank 0; every other character is unknown to the table |
| Precedence.GetPrecedence | evaluator.cpp:258-279 | defined exactly on the six operators and the two parentheses; everything else fails with 53 |
| Precedence.HasPrecedence | evaluator.cpp:282-285 | fails with 53 unless both characters are in the table; otherwise true exactly when the first ranks at least as high as the second |
| Precedence.HasPrecedencePreorder | evaluator.cpp:258-285 | on the table's characters the relation is reflexive, total and transitive; its classes of equal rank are `^`, `* / %`, `+ -` and the parentheses; it is false exactly from a looser to a tighter class |
| Numeric.ApplyOperator | evaluator.cpp:196-235 | succeeds exactly on the six operators, except `/` and `%` with a zero right operand, which throw 3; any other character throws 52; a success is the arithmetic's result |
| Machine.Operate | evaluator.cpp:238-255 | no operand throws 21; one operand throws 22; otherwise the top operator is popped, the operand stack shrinks by exactly one below an unchanged prefix, and its new top is the operator applied to the former second and first operands, or the application's error |
| Machine.Continues | evaluator.cpp:89-113 | the test of each reduction loop fails only with 53, the code of an operator unknown to the precedence table |
| Machine.ContinuesCases | evaluator.cpp:89-113 | only the operator loop's test can fail, and it fails exactly when the top or the new operator is unknown to the table; a loop stops exactly at `(` for the `)` loop and at a lower-ranked top for the operator loop; the final loop never stops on its own |
| Machine.ReduceWhile | evaluator.cpp:89-115 | each of the three reduction loops (the `)` loop at line 89, the operator loop at line 103 and the final loop at line 113) pops a suffix of the operator stack and one operand per popped operator; it stops at an empty stack or at the first operator the loop's test rejects; every popped operator passed that test; errors are those of the test and of `operate` |
| Machine.PushOperator | evaluator.cpp:101-109 | the operator branch reduces every operator ranked at least as high as the new one down to the first lower-ranked one (or `(`), then pushes the new operator; each reduction uses up one operand and the operands below the new top are untouched; errors are 53 or those of `operate` |
| Machine.ReduceKeepsBelow | evaluator.cpp:238-255 | a reduction loop that pops anything leaves an operand on top, and every operand below it was there, in place, before the loop |
| Machine.CloseParen | evaluator.cpp:88-98 | a `)` reduces down to the nearest `(` and pops exactly that `(`, using up one operand per other operator popped and leaving the operands below the new top untouched; with no `(` on the stack it fails, with 1 when the reductions succeed, and it throws 1 only then |
| Machine.Classify | evaluator.cpp:78-101 | a token is a number exactly when it is longer than one character or is one digit; `(` and `)` are recognised; everything else is taken as an operator |
| Machine.Step | evaluator.cpp:72-110 | one token: a number is pushed on the operand stack, `(` on the operator stack; `)` is never pushed; errors are loop codes |
| Machine.Run | evaluator.cpp:72-110 | the token loop never leaves `)` on the operator stack and fails only with loop codes |
| Machine.Drain | evaluator.cpp:113-115 | the final loop empties the operator stack, using up exactly one operand per operator |
| Machine.Evaluate | evaluator.cpp:113-118 | the loops' codes, or the model's code 0 for an empty operand stack at the end, are its only failures; code 0 comes out exactly when the token loop and the final loop succeed and no token is taken as a number |
| Machine.ReduceOperands | evaluator.cpp:238-255 | a successful reduction loop leaves the operand stack empty exactly when it found it empty: each `operate` that succeeds leaves at least one operand |
| Machine.StepOperands | evaluator.cpp:77-109 | after one successful token the operand stack is empty exactly when it was empty before and the token is not a number |
| Machine.RunOperands | evaluator.cpp:72-110 | a successful token loop ends with no operand exactly when it started with none and no token is taken as a number |
| Machine.Calculate | evaluator.cpp:65-119 | fails with 6 exactly on unbalanced texts and with 51 exactly on balanced texts holding a rejected character |
| MachineFacts.RunAppend | evaluator.cpp:72-110 | the token loop over `a + b` is the loop over `a`, then over `b` from where `a` left the stacks; a failure in `a` ends it |
| Trees.RunPrint | evaluator.cpp:72-115 | the tokens of a subexpression, run over a stack its operators cannot reduce past, leave the stacks each reduction loop treats as if the subexpression's value had been pushed in one go, or fail with its first error |
| Trees.RunBracket | evaluator.cpp:83-98 | a parenthesised subexpression pushes exactly its value, or fails with its first error |
| Trees.ReduceTop | evaluator.cpp:238-255 | a loop that reaches an operator over two operands replaces them by the result and carries on below |
| Trees.StopsWhenShielded | evaluator.cpp:103-105 | the operator loop stops at once over `(`, an empty stack, or a lower-ranked operator |
| Trees.StopsAtOpen | evaluator.cpp:89-91 | the `)` loop stops at once over `(` |
| Trees.EvaluatePrint | evaluator.cpp:65-119 | the evaluator's loops on the printed tokens of any well-formed tree give the tree's value, or its first error |
| TreeFacts.LeftFirst | evaluator.cpp:101-108 | in `a op1 b op2 c` with `op1` ranked at least as high as `op2`, `op1` is applied first; with equal ranks, `^` included, this is left associativity |
| TreeFacts.RightFirst | evaluator.cpp:101-108 | in `a op1 b op2 c` with `op2` ranked strictly higher, `op2` is applied first |
| TreeFacts.GroupNeutral | evaluator.cpp:83-98 | wrapping a whole expression in parentheses does not change its value |
| TreeFacts.StripNeutral | evaluator.cpp:83-98 | redundant parentheses anywhere in an expression do not change its value |
| Rendering.PrintShape | evaluator.cpp:288-302 | printed trees are balanced, consist of numerals and one-character symbols, never put two numerals side by side or a sign after `(`, and begin and end with a numeral or a parenthesis |
| Rendering.ScanSpaced | evaluator.cpp:132-173 | numerals and one-character symbols, no two numerals in a row and no sign first or right after `(`, written with any runs of spaces between them, scan back to exactly those lexemes as tokens: spaces are skipped and never join or split a token |
| Rendering.CalculateSpaced | evaluator.cpp:65-177 | `calculate` on a printed well-formed tree, with any spaces between and around its tokens, returns the tree's value or its first error |
| CloseFacts.StepOpens | evaluator.cpp:83-109 | each token changes the number of `(` on the operator stack by its own depth change, and throws 1 only as a `)` over a stack without `(` |
| CloseFacts.RunCovered | evaluator.cpp:88-98 | if no prefix of the tokens closes more `(` than were open, the loop never throws 1 |
| CloseFacts.ScanCovered | evaluator.cpp:129-158 | when the text from index `i` on never takes the nesting depth below the starting count, the tokens the scan emits from there never close more `(` than are open; with the pre-check's guarantee this holds for the whole text |
| CloseFacts.NoUnmatchedClose | evaluator.cpp:94 | `calculate` never throws 1 |
| Scenarios.MulBeforeAdd | evaluator.cpp:101-108 | `3 + 4 * 2` computes `4 * 2` first, then adds it to `3` |
| Scenarios.PowerGroupsLeft | evaluator.cpp:282-284 | `2 ^ 3 ^ 2` computes `2 ^ 3` first: `^` groups to the left, because the `>=` of `hasPrecedence` lets the operator loop at line 103 apply the first `^` before the second is pushed |
| Scenarios.DivisionByZero | evaluator.cpp:216-217 | `5 / 0` throws 3 |
| Scenarios.Remainder | evaluator.cpp:225-227 | `10 % 3` with a non-zero divisor computes the remainder |
| Scenarios.UnclosedParenthesis | evaluator.cpp:301 | `(1 + 2` throws 6 |
| Scenarios.InvalidCharacter | evaluator.cpp:166-167 | `3 & 4` throws 51 |
| Scenarios.UnbalancedBeforeInvalid | evaluator.cpp:128-129 | `)&(` throws 6, not 51: the pre-check runs first |
| Scenarios.LeadingMinus | evaluator.cpp:138-140 | `-1` is evaluated as `0 - 1` |
| Scenarios.MinusAfterOpen | evaluator.cpp:152-157 | `(-2)` is evaluated as `0 - 2` |
| Scenarios.SpacedLeadingMinus | evaluator.cpp:138-140 | ` -1` gets no `"0"` and throws 22 |
| Scenarios.SpacedMinusAfterOpen | evaluator.cpp:152-157 | `( -1)` gets no `"0"` and throws 22 |
| Scenarios.SpaceInsideNumber | evaluator.cpp:161-167 | `1 2` is the single number `12` |
| Scenarios.NumberBeforeGroup | evaluator.cpp:117-118 | `2(3+1)` returns the value of `3+1` |

## Left out

- Float arithmetic and rendering (`stof`, the float operations, `pow`, `fmod`, `to_string`) are left out. They are the parameters `compute` and `isZero` of `Numeric.Arithmetic`; only the zero-divisor check and the unknown-operator case of `applyOperator` are concrete.
- `stof`'s parsing of malformed literals such as `1.2.3` or `..` is left out. Such lexemes travel through the model as text and reach `compute` unchanged.
- The debug printers `printStack` and `printQueue` are left out: they only write to the console.
- The member-variable stacks are modelled as values local to one call, which is equivalent because `calculate` resets both stacks on entry.
- `isdigit` is taken as `'0'..'9'`, ignoring locales.
- `numStack.top()` on an empty operand stack at the end of `calculate` (for example for `()`) is undefined behaviour in C++. The model returns the model-only code 0 (`EMPTY_RESULT`).
- Reading `exp[i+1]` at the last index reads the string's terminator. The model treats it as "no next character", which never injects a `"0"`.
- `checkParenthesis` keeps a stack holding only `(`. The model keeps its size, a depth counter.
- The order in which C++ evaluates the two `getPrecedence` calls of `hasPrecedence` is unspecified. Both throw the same 53, so the model's left-first order gives the same result.
- Machine.Evaluate: its contract states when it fails and with which codes, but not the value of a success. That value is stated by `Trees.EvaluatePrint` for the tokens of every well-formed tree, and by the scenarios for other inputs.
- Machine.Calculate: its own contract states only the two tokenizer errors. Its value on other texts is stated by `Rendering.CalculateSpaced` for every printed well-formed tree, and by the scenarios for other texts. No closed form covers every text.
