# console-calculator: the front half of `calculator`, in Dafny

`calculator` takes an arithmetic expression as a string and evaluates it. It
works in four stages:

1. It normalises the string in place. `RemoveSpaces` deletes every space and
   `ReplaceCommas` turns every comma into a decimal point.
2. `ExprToTokens` scans the result into tokens. A maximal run of digits is
   one `Number` token. Every other character becomes a one-character token
   whose type, precedence and associativity come from a fixed table.
3. `ShuntingYard` converts the tokens into postfix order. It has one
   extension to the textbook algorithm: a `.` token and the digit run after
   it are glued onto the last token in the output queue, whatever its kind.
4. The postfix queue is evaluated in floating point.

This project models stages 1 to 3 as the code is written, and proves what
they do.

- `tokens.dfy` (module `Tokens`): the `Token` record, the classification
  table and the precedence ladder.
- `normalizer.dfy` (module `Normalizer`): the two in-place passes.
  - `Text` is a class over a character array and a length. It stands in for
    the `std::string&` the passes edit.
  - `RemoveSpaces`, `ReplaceCommas` and `FormatString` are methods with
    loops, each proved against a function on the string's contents.
- `tokenizer.dfy` (module `Tokenizer`): the scan.
  - `ExprToTokens` is a method: a pointer walk with an inner digit loop.
  - The method is proved equal to the recursive function `Tokenize`.
  - `Tokenize` is shown to partition the string up to its first NUL, as
    `c_str()` exposes it.
- `converter.dfy` (module `Converter`): the converter.
  - `ShuntingYard` is a method over a queue, a stack and the `gotOperator`
    flag.
  - It is proved equal to `Convert`, a fold of the one-token function
    `Step` followed by `Flush`.
  - The source's process exits, and its two reads or pops of an empty
    container, are `Err` results.
- `calculator.dfy` (module `Calculator`): the pipeline of `calculator` up to
  the postfix queue (`ToPostfix`, specified by `Postfix`). It also holds
  properties of the whole front half: whitespace insensitivity, rejection of
  letters, operator grouping and decimal gluing.
- `findings.dfy` (module `ParenFinding`): the `)` branch as written
  compared with the branch it was evidently meant to be (see Findings).
- `vectors.dfy` (module `Vectors`): the expressions the demo driver feeds to
  `calculator`, each converted to its exact postfix queue.

Five behaviours of the code are easy to misread, and the model keeps each
as the code has it:

- The `)` branch (calculator.cpp:156-180) moves at most one entry from the
  stack to the output and then pops the next entry blindly. Its own comments
  (calculator.cpp:166-167 and 174-175) describe the textbook rule: pop until
  the `(`, then discard it. See Findings.
- On `1+2)` the second `pop_back` (calculator.cpp:168) runs on an empty
  vector, which is undefined behaviour. The model reports it as
  `RightParenPopsEmptyStack`.
- The "operator seen" flag is lowered only when a number is pushed onto a
  non-empty queue (calculator.cpp:105-117). After a leading operator the
  flag stays raised through the first number, so the digits after its point
  are not glued (`Calculator.LeadingOperatorSplitsDecimal`).
- The point and the digits after it are glued onto whatever token is last
  in the output queue (calculator.cpp:106-108 and 120). Usually that is the
  number before the point, but after `)` it can be an operator: `(1+2).5`
  outputs `1`, `2` and an operator token whose text is `+.5`
  (`Converter.ConvertDotAfterCloseParen`).
- There is no unary minus: a leading `-` is an ordinary binary operator, so
  `-1+5-3` converts to `1 - 5 + 3 -` (`Vectors.ThirdTextPostfix`).

## Model

| member | source | states |
|---|---|---|
| Tokens.NumberToken | calculator.cpp:65-68 | a digit run becomes a `Number` token with its text, precedence -1 and left associativity |
| Tokens.Classify | calculator.cpp:71-88 | a non-digit becomes a one-character token: `Operator` exactly for `^*/+-`, `Unknown` exactly for characters outside the table, right-associative exactly for `^`, precedence -1 off the operators and 2 to 4 on them |
| Tokens.PrecedenceLadder | calculator.cpp:80-84 | `^` outranks `*` and `/`, which outrank `+` and `-`; each pair shares a rung; `(` ranks below every operator |
| Tokens.TableTokenIsRanked | calculator.cpp:72-88 | every token the table builds has a non-negative precedence if it is an operator and a negative one if it is `(` |
| Normalizer.WithoutSpaces | calculator.cpp:209-211 | the result holds no space and is no longer than the input |
| Normalizer.CommasToDots | calculator.cpp:213-215 | same length, every comma becomes a point in place, every other character is unchanged, and no comma is left |
| Normalizer.WithoutSpacesAppend | calculator.cpp:209-211 | deleting spaces distributes over concatenation |
| Normalizer.WithoutSpacesKeepsClean | calculator.cpp:209-211 | a string without spaces is left unchanged |
| Normalizer.WithoutSpacesLength | calculator.cpp:209-211 | exactly the spaces are removed: the length drops by the number of spaces |
| Normalizer.FormattedIsClean | calculator.cpp:217-220 | the normalised string has no space and no comma, and is shorter by exactly the number of spaces |
| Normalizer.FormattedCounts | calculator.cpp:217-220 | the result has as many points as the input has points and commas together, and every character other than space, comma and point as often as the input |
| Normalizer.FormattedKeepsClean | calculator.cpp:217-220 | a string with no space and no comma is left unchanged |
| Normalizer.FormattedIdempotent | calculator.cpp:217-220 | normalising twice is normalising once |
| Normalizer.PassesCommute | calculator.cpp:217-220 | replacing commas first and deleting spaces after gives the same string |
| Normalizer.FormattedAppend | calculator.cpp:217-220 | normalisation distributes over concatenation |
| Normalizer.FormattedIgnoresSpace | calculator.cpp:217-220 | inserting a space anywhere does not change the normalised string |
| Normalizer.Text.constructor | calculator.cpp:222 | a fresh buffer whose contents are the given string |
| Normalizer.RemoveSpaces | calculator.cpp:209-211 | in place on the same buffer, the contents become the old contents with every space deleted |
| Normalizer.ReplaceCommas | calculator.cpp:213-215 | in place, with the length kept, every comma of the contents becomes a point |
| Normalizer.FormatString | calculator.cpp:217-220 | in place, the contents become the normalised old contents |
| Tokenizer.CStr | calculator.cpp:63 | what the scan sees is the longest NUL-free prefix of the string: all of it when it holds no NUL, and otherwise everything up to the first NUL |
| Tokenizer.DigitRun | calculator.cpp:65-66 | the inner loop stops at the first non-digit: everything before is digits |
| Tokenizer.TokenizeNumberHead | calculator.cpp:64-69 | at a maximal run of digits the scan emits one `Number` token for the whole run and resumes after it |
| Tokenizer.TokenizeOtherHead | calculator.cpp:71-89 | at any other character the scan emits that character's table token and resumes at the next one |
| Tokenizer.TokenizeAppend | calculator.cpp:60-93 | when the first string holds no NUL and the join does not put two digits side by side, the tokens of the whole are the tokens of the first part followed by those of the second |
| Tokenizer.ExprToTokens | calculator.cpp:60-93 | the pointer walk with its inner digit loop returns exactly `Tokenize(expr)` |
| Tokenizer.TokenizePartitions | calculator.cpp:60-93 | the token texts, concatenated in order, give back the string up to its first NUL |
| Tokenizer.TokenizeOpenKinds | calculator.cpp:60-93 | a string of digits, points, operators and `(` scans to `Number`, `Dot`, `Operator` and `LeftParen` tokens only |
| Tokenizer.TokenizeShape | calculator.cpp:60-93 | every `Number` token is a non-empty digit run; every other token is the table token of one non-digit; no two `Number` tokens are adjacent; every token is as the table builds it |
| Converter.Reversed | calculator.cpp:192-200 | entries come off the stack top first: same length, position `k` holds entry `n-1-k` |
| Converter.PopOperators | calculator.cpp:130-146 | the popping loop moves to the queue, top first, a top segment of the stack in which `o1` pops every entry; what remains is empty or has a top `o1` does not pop |
| Converter.Flush | calculator.cpp:192-200 | the final drain succeeds exactly when no `(` is left on the stack; it then appends the stack top first, and otherwise fails with `MismatchedParens` |
| Converter.ShuntingYard | calculator.cpp:96-207 | the loop over the tokens, with the flag, the popping loop, the `)` branch as written and the final drain, returns exactly `Convert(tokens)` |
| Converter.RunAppend | calculator.cpp:101-190 | the loop over a concatenation is the loop over the first part continued from its state; an error in the first part stops it |
| Converter.RunKeepsOperatorStack | calculator.cpp:124-180 | whatever the input, the stack only ever holds operators and `(` |
| Converter.StackHoldsOperatorsAndParens | calculator.cpp:101-190 | after every prefix of the input the stack holds only operators and `(` |
| Converter.RunKeepsSound | calculator.cpp:101-190 | given tokens ranked as the table ranks them, the stack holds only ranked operators and `(`, and the queue only numbers and operators |
| Converter.ConvertOutputsNumbersAndOperators | calculator.cpp:96-207 | a successful conversion of ranked tokens outputs only `Number` and `Operator` tokens |
| Converter.ConvertRejectsUnknown | calculator.cpp:182-185 | an `Unknown` token anywhere in the input makes the conversion fail |
| Converter.RunParenBalance | calculator.cpp:152-180 | over any run, the `(` left on the stack plus the `)` read are at least the `(` read |
| Converter.ConvertClosesEveryParen | calculator.cpp:152-200 | a successful conversion has at least as many `)` as `(` in its input, so an unclosed `(` never converts |
| Converter.StepNumberFirst | calculator.cpp:105-117 | one step unfolded: a number reaching an empty queue is pushed and the flag is left as it was |
| Converter.StepNumberApart | calculator.cpp:105-113 | one step unfolded: a number after a point-free output token, or after an operator, is pushed and the flag is lowered |
| Converter.StepNumberGlued | calculator.cpp:106-109 | one step unfolded: a number is glued onto the last output token, of any kind, when that token holds a point and no operator came since |
| Converter.StepDot | calculator.cpp:119-121 | one step unfolded: a point is appended to the text of the last output token, of any kind |
| Converter.StepOperatorShort | calculator.cpp:124-149 | one step unfolded: an operator meeting a stack of at most one entry pops it exactly when the rule says so, is pushed, and raises the flag |
| Converter.StepOperatorPush | calculator.cpp:130-148 | one step unfolded: an operator that does not pop the top is pushed above it |
| Converter.StepOperatorPopOne | calculator.cpp:130-148 | one step unfolded: an operator that pops the top but not the entry under it moves exactly the top out |
| Converter.StepOperatorPopTwo | calculator.cpp:130-148 | one step unfolded: an operator that pops both entries of a two-entry stack moves them out top first |
| Converter.StepLeftParen | calculator.cpp:152-154 | one step unfolded: a `(` is pushed |
| Converter.StepCloseParenEmpty | calculator.cpp:173-178 | one step unfolded: a `)` meeting an empty stack is reported as unmatched |
| Converter.RunGlueOntoLast | calculator.cpp:106-120 | with the flag down, `. z` appends the point and then `z`'s digits to the text of the last output token, whatever it is |
| Converter.ConvertDotAfterCloseParen | calculator.cpp:106-170 | `( x a y ) . z` outputs `x`, `y` and the operator `a` with `.z` appended to its text |
| Converter.RunWithoutCloseParen | calculator.cpp:101-190 | once a number has been output, numbers, points, operators and `(` never make the loop fail, and the queue stays non-empty |
| Converter.RunStopsAtUnknown | calculator.cpp:182-185 | after a successful prefix, an unknown token stops the loop with its own error, whatever follows |
| Converter.ConvertTwoOperators | calculator.cpp:124-200 | `x a y b z` converts to `x y a z b` when `b` pops `a`, and to `x y z b a` otherwise |
| Converter.ConvertDecimal | calculator.cpp:103-121 | number, point, number converts to the one number `x.y` |
| Converter.ConvertDecimalAfterOperator | calculator.cpp:103-149 | in `x a y . z` the fraction is glued onto `y` and `a` comes last |
| Converter.ConvertOperatorEndsDecimal | calculator.cpp:103-149 | in `x . y a z` the operator stops the gluing: `z` stays a number of its own |
| Converter.ConvertLeadingOperator | calculator.cpp:103-149 | after a leading operator the flag stays raised through the first number, so `x .` and `y` come out as two numbers |
| Calculator.ToPostfix | calculator.cpp:222-237 | the caller's string is left normalised in place, and `ExprToTokens` then `ShuntingYard` on it return exactly `Postfix` of the string as it was passed |
| Calculator.PostfixIgnoresSpace | calculator.cpp:217-237 | inserting a space anywhere in the expression does not change the postfix queue or the error |
| Calculator.PostfixShape | calculator.cpp:222-237 | on success the postfix queue holds only numbers and operators, and the tokens of the normalised input hold no more `(` than `)` |
| Calculator.PostfixRejectsUnknownChar | calculator.cpp:182-185 | a character outside the table, standing before any NUL, makes the whole front half fail |
| Calculator.UnknownTokenIndex | calculator.cpp:71-88 | a non-digit before the first NUL produces its table token somewhere in the token sequence |
| Calculator.TwoOperators | calculator.cpp:124-149 | `x a y b z` groups the tighter operator first; at equal precedence `+ - * /` group from the left and `^` from the right |
| Calculator.PowerGroupsRight | calculator.cpp:137-139 | `2^3^2` converts to `2 3 2 ^ ^` |
| Calculator.DecimalIsOneNumber | calculator.cpp:103-121 | `x.y` converts to the single number `x.y` |
| Calculator.DecimalAfterOperator | calculator.cpp:103-149 | `x a y.z` converts to `x`, `y.z`, `a` |
| Calculator.OperatorEndsDecimal | calculator.cpp:103-149 | `x.y a z` converts to `x.y`, `z`, `a` |
| Calculator.LeadingOperatorSplitsDecimal | calculator.cpp:103-117 | `a x.y` converts to `x.`, `y`, `a`: the flag raised by the leading operator is never lowered |
| Calculator.PostfixStopsAtUnknownChar | calculator.cpp:182-185 | in an expression that starts with a digit and has only digits, points, operators, `(` and spaces before a character outside the table, the front half fails with exactly that character's `UnknownToken` error |
| Calculator.LettersRejected | main.cpp:12 | `1.1 + 2.1 + abc` fails with the unknown token `a` |
| ParenFinding.CloseParenLosesOperator | calculator.cpp:156-170 | with two operators on top of the stack, `)` outputs the top one and drops the other: one operator fewer in queue and stack together |
| ParenFinding.TopParen | calculator.cpp:159-164 | the position of the nearest `(`, with no `(` above it, or -1 when there is none |
| ParenFinding.PopToLeftParen | calculator.cpp:156-178 | the intended branch succeeds exactly when the stack holds a `(`; it outputs everything above the nearest `(` top first, drops that `(`, and otherwise reports the unmatched `)` |
| ParenFinding.CloseParenAgreesNearParen | calculator.cpp:156-178 | when the nearest `(` is the top or right under it, or the stack is empty, the branch as written does what was intended |
| ParenFinding.StepIntendedKeepsOperators | calculator.cpp:101-190 | with the intended branch, each token keeps every operator in queue and stack, and an operator token adds one |
| ParenFinding.ConvertIntendedKeepsOperators | calculator.cpp:96-207 | with the intended branch, a successful conversion outputs as many operators as its input has |
| ParenFinding.RunIntendedAgrees | calculator.cpp:101-190 | on input without `)` the intended loop and the loop as written agree |
| ParenFinding.StrayParenDropsOperator | calculator.cpp:156-170 | `x a y b z )` where `b` does not pop `a`: as written it outputs `x y z b` (one operator lost, stray `)` accepted); intended, it reports the `)` |
| ParenFinding.OneOperatorStrayParen | calculator.cpp:159-170 | `x a y )`: as written the second pop finds the stack empty; intended, it reports the `)` |
| ParenFinding.BracketedDropsOperator | calculator.cpp:156-196 | `( x a y b z )`: as written `a` is lost and the left-over `(` makes the input mismatched; intended, it outputs `x y z b a` |
| ParenFinding.StrayParenText | calculator.cpp:156-170 | for any numerals, `x+y*z)` converts as written to `x y z *` and is rejected by the intended pipeline |
| ParenFinding.BracketedParenText | calculator.cpp:156-196 | for any numerals, `(x+y*z)` fails as written with `MismatchedParens`; the intended pipeline outputs `x y z * +` |
| ParenFinding.ShortStrayParenText | calculator.cpp:159-170 | for any numerals, `x+y)` fails as written with `RightParenPopsEmptyStack`; the intended pipeline reports the `)` |
| ParenFinding.StrayParenInput | calculator.cpp:156-170 | `1+2*3)` converts as written to `1 2 3 *` |
| ParenFinding.BracketedInput | calculator.cpp:156-196 | `(1+2*3)` fails as written; intended, it gives `1 2 3 * +` |
| ParenFinding.OneOperatorInput | calculator.cpp:159-170 | `1+2)` reaches the second pop of an empty stack as written; intended, it reports the `)` |
| Vectors.FirstTextPostfix | main.cpp:7 | for any numerals, `a+b*c/(d-e)^f^g` converts to `a b c * d e - f g ^ ^ / +` |
| Vectors.FirstExample | main.cpp:7 | `3+4*2/(1-5)^2^3` converts to `3 4 2 * 1 5 - 2 3 ^ ^ / +` |
| Vectors.SecondTextPostfix | main.cpp:8 | for any numerals, `a-b/c+d*e^f` converts to `a b c / - d e f ^ * +` |
| Vectors.SecondExample | main.cpp:8 | `20-30/3+4*2^3` converts to `20 30 3 / - 4 2 3 ^ * +` |
| Vectors.ThirdTextPostfix | main.cpp:9 | for any numerals, `-a+b-c` converts to `a - b + c -`: the leading `-` is a binary operator |
| Vectors.ThirdExample | main.cpp:9 | `-1+5-3` converts to `1 - 5 + 3 -` |
| Vectors.FormattedFourthText | main.cpp:10 | the comma of `-a+(b*c.d)-(e/f,g)` becomes a point |
| Vectors.FourthTextPostfix | main.cpp:10 | for any numerals, `-a+(b*c.d)-(e/f,g)` converts to `a - b c.d * + e f.g / -` |
| Vectors.FourthExample | main.cpp:10 | `-10+(8*2.5)-(3/1,5)` converts to `10 - 8 2.5 * + 3 1.5 / -` |
| Vectors.FormattedFifthText | main.cpp:11 | both commas of `a+(b*(c.d+e,f+(g-h)))-(i/j,k)` become points |
| Vectors.FifthTextPostfix | main.cpp:11 | for any numerals, `a+(b*(c.d+e,f+(g-h)))-(i/j,k)` converts to `a b c.d e.f + g h - + * + i j.k / -` |
| Vectors.FifthExample | main.cpp:11 | `1+(2*(2.5+2,5+(3-2)))-(3/1,5)` converts to `1 2 2.5 2.5 + 3 2 - + * + 3 1.5 / -` |

## Left out

- The evaluator (calculator.cpp:238-302) is not part of this model: it
  computes in floating point with `pow`.
- `operator<<` (calculator.cpp:33-36), `debugOutput` (calculator.cpp:39-58),
  the `DEBUG` blocks and the stream formatting in `calculator` are printing
  only.
- The error messages printed before each `exit(0)` are left out. Each exit
  is an `Err` result naming the cause.
- Two reads or pops of an empty container are undefined behaviour in the
  source. The model turns them into errors instead of guessing what the
  program would do:
  - a `.` with an empty queue (calculator.cpp:120) becomes
    `DotWithEmptyQueue`;
  - the `)` branch's second pop (calculator.cpp:168) becomes
    `RightParenPopsEmptyStack`.
- `main`'s loop over the test strings and its exception handler
  (main.cpp:14-22) are left out. Each string is modelled on its own.
- A Dafny `string` is a sequence of Unicode characters, while `std::string`
  holds bytes. On input outside ASCII the source makes one `Unknown` token
  per byte of a multi-byte character, and calls `isdigit` on a negative
  `char`, which is undefined. The model makes one token per character, so
  `Tokenizer.TokenizePartitions` and `Tokenizer.TokenizeShape` describe a
  different token sequence on such input. Setting that undefined call
  aside, both fail on such a character, but the token named in the
  `UnknownToken` error differs.
- `isdigit` is modelled as the ASCII digits `0` to `9`. Locale-dependent
  digits are not modelled.
- The `std::deque` queue and `std::vector` stack are sequences, replaced
  whole at each step. The `Text` class stands in for the caller's
  `std::string`; the model does not capture aliasing between two
  strings.
- The `)` branch's `while` loop always leaves through its `break` after one
  pass. `Converter.ShuntingYard` therefore writes it as the conditional it
  is.
- Vectors.SecondExample, Vectors.ThirdExample, Vectors.FourthExample and
  Vectors.FifthExample state the conversion of the driver's strings with their spaces removed.
  `Calculator.PostfixIgnoresSpace` shows that removing spaces changes
  nothing. The spaced literals are not written out.

## Findings

| source | as written | input that shows it | evidently intended | confidence | as-written member | corrected member |
|---|---|---|---|---|---|---|
| calculator.cpp:156-170 | the `)` branch moves at most one stack entry to the output, then pops and discards the next entry whatever it is, so an operator under the top is lost | `1+2*3)` gives `1 2 3 *`; `(1+2*3)` fails as mismatched | pop operators to the output until the nearest `(`, discard it, and report an unmatched `)` when there is none | not executed | ParenFinding.StrayParenInput | ParenFinding.ConvertIntendedKeepsOperators |
| calculator.cpp:159-170 | with one operator on the stack and no `(`, the second `pop_back` runs on an empty vector | `1+2)` | report the unmatched `)` | not executed | ParenFinding.OneOperatorInput | ParenFinding.PopToLeftParen |
