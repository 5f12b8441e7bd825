# Syntax-directed arithmetic evaluator, modelled in Dafny

This project models the command-line arithmetic evaluator in `c/expr_eval.c`.
It has two parts:

- A lexer with one token of lookahead (`skip_space`, `next_token`).
- A recursive-descent parser with five levels (`parse_expression`, `parse_term`, `parse_pow`, `parse_unary`, `parse_primary`). The C code evaluates as it parses.

The driver of `main` resets the cursor and the error flag, primes the lexer, and parses one expression. It accepts the input exactly when the error flag is clear and the current token is `T_END`.

The model has five modules:

- `Lexer` (lexer.dfy): one call of `next_token` as a function `Lex` of the string and the cursor.
  - The C string is a `string` whose NUL terminator sits at index `|src|`.
  - `At` reads the terminator there.
- `Grammar` (grammar.dfy): the five productions and the driver as pure functions over the parser state (cursor, current token, error flag).
  - Each production returns the expression tree it recognised (`Num(lexeme)`, `Neg(e)`, `Bin(op, l, r)`) instead of a `double`.
  - The loops of `parse_pow`, `parse_term` and `parse_expression` are the functions `PowLoop`, `TermLoop` and `ExprLoop`.
  - Termination is shown by the measure "characters left, plus one while the lookahead token is not `T_END`", followed by the grammar level.
- `ExprEval` (evaluator.dfy): the program as it runs.
  - The globals `src`, `pos`, `curtok` and `error_flag` are the fields of class `Evaluator`.
  - Each C function is a method that updates them in place, with `while` loops for `skip_space`, the number scan and the three folding loops.
  - Each method is proved to compute exactly the corresponding `Lexer` or `Grammar` function.
- `Printer` (printer.dfy): a printer that writes a tree with the fewest parentheses the ladder needs and one space around each binary operator.
  - The main theorem is that evaluating the printed text gives the tree back.
  - This fixes the precedence and the left-to-right folding at every level, and it shows that a unary sign binds inside the operands of `^`.
- `Properties` (properties.dfy): consequences for whole inputs.
  - Which inputs are rejected, and what an accepted input consists of.
  - How concrete inputs group.

## Model

| member | source | states |
|---|---|---|
| Lexer.SkipSpaces | c/expr_eval.c:18-20 | the cursor only moves forward, stays within the string, and stops on a character that is not `' '` |
| Lexer.SkippedAreSpaces | c/expr_eval.c:18-20 | every character skipped is `' '`; no other character (tab, newline) is skipped |
| Lexer.NumberEnd | c/expr_eval.c:29 | the number scan stops on the first character that is neither a digit nor `'.'`, within the string |
| Lexer.NumberRun | c/expr_eval.c:29 | every character the number scan passes is a digit or `'.'` |
| Lexer.Lex | c/expr_eval.c:22-43 | one scan: at the terminator `T_END` without advancing; otherwise the cursor strictly advances and never passes the NUL; a number is the maximal run of digits and dots, nonempty; each of `+ - * / ^ ( )` gives its own token and advances by exactly one; any other character gives `T_END`, advances by one and reports an error; errors only come with `T_END` |
| Lexer.LexConsumesLexChars | c/expr_eval.c:22-43 | a scan without an error consumed only blanks, digits, dots, operators and parentheses |
| Lexer.LexSkipsSpaces | c/expr_eval.c:18-25 | blanks in front of the cursor do not change the scan |
| Lexer.NumberScanTakesAnyDots | c/expr_eval.c:26-30 | `1.2.3` and a lone `.` are each one number token; `12 3` scans as `12` |
| Grammar.Next | c/expr_eval.c:22-43 | next_token on the parser state: the measure never grows, and strictly drops unless the lookahead was `T_END`; the error flag is never cleared; lexical states stay lexical |
| Grammar.Primary | c/expr_eval.c:48-67 | without an error, the token was a number or `(`; any other token sets the error flag, is not consumed, and yields 0; the state only advances and the flag is sticky |
| Grammar.Unary | c/expr_eval.c:69-78 | state only advances, error flag sticky, result is a well-formed tree on lexical input |
| Grammar.PowLoop | c/expr_eval.c:82-88 | the `^` loop: state only advances, error flag sticky, result well formed |
| Grammar.Power | c/expr_eval.c:80-90 | state only advances, error flag sticky, result is a well-formed tree on lexical input |
| Grammar.TermLoop | c/expr_eval.c:94-101 | the `*` `/` loop: state only advances, error flag sticky, result well formed |
| Grammar.Term | c/expr_eval.c:92-103 | state only advances, error flag sticky, result is a well-formed tree on lexical input |
| Grammar.ExprLoop | c/expr_eval.c:107-114 | the `+` `-` loop: state only advances, error flag sticky, result well formed |
| Grammar.Expression | c/expr_eval.c:105-116 | state only advances, error flag sticky, result is a well-formed tree on lexical input |
| Grammar.Evaluation | c/expr_eval.c:138-148 | an accepted input yields a tree whose numbers are all valid lexemes |
| ExprEval.Evaluator.constructor | c/expr_eval.c:13-16 | the globals start empty, at 0, with `T_END` and a clear error flag |
| ExprEval.Evaluator.SkipSpace | c/expr_eval.c:18-20 | the loop leaves `pos` where `SkipSpaces` says, on a non-blank, having passed only blanks; only `pos` changes |
| ExprEval.Evaluator.NextToken | c/expr_eval.c:22-43 | the new cursor, token and error flag are exactly `Next` of the old ones; the string is untouched |
| ExprEval.Evaluator.ParsePrimary | c/expr_eval.c:48-67 | returns the tree and leaves the state that `Primary` gives for the old state |
| ExprEval.Evaluator.ParseUnary | c/expr_eval.c:69-78 | returns the tree and leaves the state that `Unary` gives for the old state |
| ExprEval.Evaluator.ParsePow | c/expr_eval.c:80-90 | the folding loop computes what `Power` gives for the old state |
| ExprEval.Evaluator.ParseTerm | c/expr_eval.c:92-103 | the folding loop computes what `Term` gives for the old state |
| ExprEval.Evaluator.ParseExpression | c/expr_eval.c:105-116 | the folding loop computes what `Expression` gives for the old state |
| ExprEval.Evaluator.Evaluate | c/expr_eval.c:138-148 | the verdict is `Evaluation(s)`, whatever state an earlier call left behind; the cursor, token and error flag end as parse_expression leaves them after the lexer is primed on `s` |
| Printer.ExprPrefix | c/expr_eval.c:105-116 | on the printed text of a tree followed by a token that ends an expression, parse_expression's loop is left with exactly that tree and the state after its text |
| Printer.TermPrefix | c/expr_eval.c:92-103 | the same at the term level, for text not followed by `^` |
| Printer.PowPrefix | c/expr_eval.c:80-90 | the same at the power level |
| Printer.UnaryPrefix | c/expr_eval.c:48-78 | a printed number, negation or parenthesised operation parses as exactly that tree, consuming exactly its text |
| Printer.EvaluationOfPrint | c/expr_eval.c:69-148 | for every well-formed tree, the printed text is accepted and evaluates to the same tree (precedence, left folding at every level, sign inside `^` operands) |
| Printer.NormalFormRoundTrip | c/expr_eval.c:138-148 | corollary of `EvaluationOfPrint` for the trees the driver accepts: every accepted input is accepted again, as the same tree, after printing it back in canonical form |
| Printer.PrimedSkipsBlanks | c/expr_eval.c:18-23 | blanks in front of the cursor do not change the token read |
| Printer.UnaryPlusStep | c/expr_eval.c:70 | a leading `+` is dropped: parse_unary after `+` returns exactly the operand that follows, with the state after it |
| Properties.BadStartFlagsError | c/expr_eval.c:65-66 | an operand starting with `T_END`, `*`, `/`, `^` or `)` flags an error at every level of the ladder |
| Properties.UnmatchedParenFlagsError | c/expr_eval.c:55-61 | for every input and state, a `(` whose expression is not followed by `)` flags an error at every level of the ladder |
| Properties.UnclosedRejected | c/expr_eval.c:55-61 | for every well-formed tree, `"("` followed by its printed text is rejected |
| Properties.UnaryPlusDropped | c/expr_eval.c:70 | for every well-formed tree, `"+"` followed by its printed operand text is accepted as that same tree |
| Properties.PrintPreservesValue | c/expr_eval.c:80-116 | under every interpretation of the operators, the canonical text of a tree is accepted and evaluates to the tree's value; a corollary of `EvaluationOfPrint` |
| Properties.PrintedThenBlanks | c/expr_eval.c:18-23 | canonical text followed only by blanks parses as exactly its tree, and the scan ends at the end of the string |
| Properties.BlanksAround | c/expr_eval.c:18-23 | the canonical text of any tree with a blank before and after it is still accepted as that tree |
| Properties.BlankRejected | c/expr_eval.c:138-148 | an empty or all-blank input is a syntax error |
| Properties.AcceptedInputIsLexical | c/expr_eval.c:22-43 | an accepted input holds only blanks, digits, dots, operators and parentheses up to its first NUL |
| Properties.AcceptedCharacters | c/expr_eval.c:144 | without an embedded NUL, every character of an accepted input is one the scanner knows |
| Properties.RejectedExamples | c/expr_eval.c:138-148 | `""`, `"1 2"`, `"(1+2"`, `"1 +"` and `"1 & 2"` are rejected |
| Properties.OperandsWithoutOperator | c/expr_eval.c:144 | `"1 2"` is rejected: the second number is left as the current token |
| Properties.UnclosedParenthesis | c/expr_eval.c:58-60 | `"(1+2"` is rejected: the `)` is missing |
| Properties.DanglingOperator | c/expr_eval.c:107-110 | `"1 +"` is rejected: the operand after `+` is missing |
| Properties.UnknownCharacter | c/expr_eval.c:41 | `"1 & 2"` is rejected: `&` sets the error flag |
| Properties.TabIsUnknown | c/expr_eval.c:18-20 | a tab is not skipped: it is an unknown character and the input is rejected |
| Properties.PrecedenceExample | c/expr_eval.c:92-116 | `"3 + 4 * 2"` groups as `3 + (4 * 2)` |
| Properties.PowerFoldsLeft | c/expr_eval.c:82-88 | `"2 ^ 3 ^ 2"` groups as `(2 ^ 3) ^ 2` |
| Properties.SignInsidePower | c/expr_eval.c:69-84 | `"-3 ^ 2"` groups as `(-3) ^ 2` |
| Properties.DivisionFoldsLeft | c/expr_eval.c:94-101 | `"8 / 4 / 2"` groups as `(8 / 4) / 2` |
| Properties.DivisionByZeroAccepted | c/expr_eval.c:98 | `"1 / 0"` is accepted; division by zero is not a syntax error |
| Properties.ParenthesesGroup | c/expr_eval.c:55-63 | `"2 * (3 + 4)"` multiplies by the parenthesised sum |
| Properties.ParenthesisedBase | c/expr_eval.c:55-63 | `"(1 - 5) ^ 2"` raises the parenthesised difference |
| Properties.UnspacedPowerTokens | c/expr_eval.c:22-43 | the successive scans of `"2^3^2"`: number, `^`, number, `^`, number, end |
| Properties.UnspacedPowerFoldsLeft | c/expr_eval.c:82-88 | `"2^3^2"`, without blanks, groups as `(2 ^ 3) ^ 2` |
| Properties.UnspacedSignTokens | c/expr_eval.c:22-43 | the successive scans of `"-3^2"`: `-`, number, `^`, number, end |
| Properties.UnspacedSignInsidePower | c/expr_eval.c:69-84 | `"-3^2"`, without blanks, groups as `(-3) ^ 2` |
| Properties.UnspacedDivisionFoldsLeft | c/expr_eval.c:94-101 | `"8/4/2"`, without blanks, groups as `(8 / 4) / 2` |

## Left out

- The console loop of `main` (c/expr_eval.c:118-137, 149-160): `fgets` into a 256-byte buffer, removing the newline, the empty-line message, the `q`/`Q` quit test, and the `y`/`n` prompt. These are I/O. `Evaluate` models one pass of lines 138-148 for a given line. In the program an empty line never reaches the parser; that the parser rejects it anyway is a property of the model.
- The `printf` "Step:" traces (c/expr_eval.c:51, 74, 86, 99, 112): output only.
- IEEE `double` arithmetic, `strtod` and `pow` (c/expr_eval.c:28, 85, 98, 111). Number tokens carry the lexeme the scan consumed, and the productions return trees. `Grammar.Value` is the definition of what a tree computes: it folds the tree with abstract operators (the value of a lexeme, negation, the five binary operations), as the productions fold values. `Properties.PrintPreservesValue` is the fact stated about it. Rounding, infinities and NaN are not modelled.
- The `value` field of `curtok`: the C code leaves it stale on non-number tokens, which nothing reads. The model keeps the lexeme only in number tokens.
- The width of `int pos`: the cursor is a `nat`. The C buffer holds at most 255 characters, so the cursor cannot overflow there.
- The returned 0 of a failed production is the tree `Num("0")`. Callers fold it into their running value like any other operand; the driver discards the final result once the flag is set.
- Bytes: a C `char` is a byte and a Dafny `char` is a Unicode scalar. A multi-byte character is several unknown bytes at c/expr_eval.c:41 and one unknown character in the model. Either way the input is a syntax error; only the cursor position where the scan stops differs.
- c/streamlit_app/app.py: a web front end, a subprocess shim and a separate evaluator built on Python's `ast`, none of which is this core.
- Number syntax beyond what the scan at c/expr_eval.c:29 does. The number scan takes any count of dots (`1.2.3`, a lone `.`), and what `strtod` makes of such a run is not modelled. Only `' '` is skipped, never a tab or newline, and nothing is trimmed before lexing.
